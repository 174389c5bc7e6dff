/**
 * The read side of the private-event menu builder in `js/main.js`
 * (`renderPrivateEventMenu`): menu items as the builder normalises them, and
 * the queries over a quantity map — the ordered selections, the selections
 * grouped by section, the selected beverage add-ons — plus the guest count
 * read from its input.
 *
 * A quantity map sends an item name (or an add-on key) to its quantity; a
 * name that is absent has quantity 0.
 */
module Selections {
  import opened Wrappers
  import opened Text
  import Pricing

  /** A menu item as the builder keeps it: the result of `normalizeMenuItem`. */
  datatype MenuItem = MenuItem(
    name: string,
    fixedPrice: Option<real>,
    perPerson: Option<real>,
    cogsPerPerson: Option<real>,
    cogsPerBatch: Option<real>,
    servingsPerBatch: Option<real>,
    pricingType: string,
    sectionTitle: string,
    allowQuantity: bool,
    maxQty: Option<int>)

  /**
   * `normalizeMenuItem(item, menuId, sectionTitle)`: the builder's view of a
   * data item, or nothing for an item without a name.
   */
  function NormalizeMenuItem(item: Pricing.Item, sectionTitle: Option<string>): (r: Option<MenuItem>)
    ensures r.None? <==> item.name == ""
    ensures r.Some? ==> r.value.name == item.name && r.value.pricingType != ""
    ensures r.Some? ==> r.value.sectionTitle == sectionTitle.GetOr("")
    ensures r.Some? ==> r.value.pricingType == Pricing.ResolvedType(item)
    ensures r.Some? ==> r.value.fixedPrice == item.fixedPrice && r.value.perPerson == item.perPersonPrice
    ensures r.Some? ==> r.value.cogsPerPerson == (if item.cogsPerPerson.Some? then item.cogsPerPerson else item.ingredientCostPerServing)
    ensures r.Some? ==> r.value.cogsPerBatch == item.cogsPerBatch && r.value.servingsPerBatch == item.servingsPerBatch
    ensures r.Some? ==> r.value.allowQuantity == item.allowQuantity && r.value.maxQty == item.maxQty
  {
    if item.name == "" then None
    else
      Some(MenuItem(
        item.name,
        item.fixedPrice,
        item.perPersonPrice,
        Pricing.IngredientCost(item),
        item.cogsPerBatch,
        item.servingsPerBatch,
        Pricing.ResolvedType(item),
        sectionTitle.GetOr(""),
        item.allowQuantity,
        item.maxQty))
  }

  /**
   * Normalising an item that went through `applyPricing` keeps the type it was
   * stamped with and exposes the prices pricing derived.
   */
  lemma NormalizePricedItem(item: Pricing.Item, sectionTitle: Option<string>)
    requires item.name != ""
    ensures var n := NormalizeMenuItem(Pricing.PriceItem(item), sectionTitle).value;
      && n.pricingType == Pricing.ResolvedType(item)
      && (Pricing.ResolvedType(item) == "per_person" && Pricing.IngredientCost(item).Some? ==>
            n.perPerson.Some? && n.cogsPerPerson == Pricing.IngredientCost(item))
      && (Pricing.ResolvedType(item) == "per_person" && item.perPersonPrice.None? && Pricing.IngredientCost(item).Some? ==>
            n.perPerson.value >= Pricing.PerPersonFloor(item.category))
      && (Pricing.ResolvedType(item) != "per_person" && Pricing.DerivedBatchCost(item).Some? ==> n.fixedPrice.Some?)
      && (Pricing.ResolvedType(item) != "per_person" && item.fixedPrice.None? && Pricing.DerivedBatchCost(item).Some? ==>
            n.fixedPrice.value >= Pricing.MinFixedPrice)
  {
    var t := Pricing.ResolvedType(item);
    if t == "per_person" && Pricing.IngredientCost(item).Some? {
      if item.perPersonPrice.None? {
        Pricing.PerPersonPriceDerived(item);
      }
      assert Pricing.IngredientCost(Pricing.PriceItem(item)) == Pricing.IngredientCost(item);
    }
    if t != "per_person" && item.fixedPrice.None? && Pricing.DerivedBatchCost(item).Some? {
      Pricing.FixedPriceDerived(item);
    }
    assert Pricing.PriceItem(item).pricingType == Some(t);
  }

  /** The items of a section, normalised, with the nameless ones dropped (`.map(...).filter(Boolean)`). */
  function NormalizeItems(items: seq<Pricing.Item>, sectionTitle: Option<string>): (r: seq<MenuItem>)
    ensures |r| <= |items|
    ensures forall k :: 0 <= k < |r| ==> r[k].name != "" && r[k].sectionTitle == sectionTitle.GetOr("")
    ensures forall x :: x in items && x.name != "" ==> NormalizeMenuItem(x, sectionTitle).value in r
    ensures forall y :: y in r ==> exists x :: x in items && x.name != "" && y == NormalizeMenuItem(x, sectionTitle).value
    decreases |items|
  {
    if items == [] then []
    else
      var init := items[..|items| - 1];
      var last := items[|items| - 1];
      assert items == init + [last];
      NormalizeItems(init, sectionTitle) + (if last.name == "" then [] else [NormalizeMenuItem(last, sectionTitle).value])
  }

  /**
   * Normalising a concatenation normalises each part and keeps them in order;
   * with `NormalizeItemsSingle` this pins down the order `.filter` keeps.
   */
  lemma {:induction false} NormalizeItemsConcat(a: seq<Pricing.Item>, b: seq<Pricing.Item>, sectionTitle: Option<string>)
    ensures NormalizeItems(a + b, sectionTitle) == NormalizeItems(a, sectionTitle) + NormalizeItems(b, sectionTitle)
    decreases |b|
  {
    if b != [] {
      var init := b[..|b| - 1];
      var last := b[|b| - 1];
      assert (a + b)[..|a + b| - 1] == a + init;
      assert (a + b)[|a + b| - 1] == last;
      NormalizeItemsConcat(a, init, sectionTitle);
    } else {
      assert a + b == a;
    }
  }

  /** A single item is dropped when nameless and normalised otherwise. */
  lemma NormalizeItemsSingle(x: Pricing.Item, sectionTitle: Option<string>)
    ensures NormalizeItems([x], sectionTitle) == if x.name == "" then [] else [NormalizeMenuItem(x, sectionTitle).value]
  {
    assert [x][..0] == [];
  }

  function NormalizeSection(section: Pricing.Section<Pricing.Item>): Pricing.Section<MenuItem> {
    Pricing.Section(section.title, NormalizeItems(section.items, section.title))
  }

  function NormalizeMenu(menu: Pricing.Menu<Pricing.Item>): Pricing.Menu<MenuItem> {
    Pricing.Menu(menu.id, menu.displayName,
      seq(|menu.sections|, j requires 0 <= j < |menu.sections| => NormalizeSection(menu.sections[j])))
  }

  /** `normalizedMenus`: every menu kept, in order, with the same sections, its items normalised. */
  function NormalizeMenus(menus: seq<Pricing.Menu<Pricing.Item>>): (r: seq<Pricing.Menu<MenuItem>>)
    ensures |r| == |menus|
    ensures forall i :: 0 <= i < |menus| ==>
      && r[i].id == menus[i].id && r[i].displayName == menus[i].displayName
      && |r[i].sections| == |menus[i].sections|
    ensures forall i, j :: 0 <= i < |menus| && 0 <= j < |menus[i].sections| ==>
      && r[i].sections[j].title == menus[i].sections[j].title
      && r[i].sections[j].items == NormalizeItems(menus[i].sections[j].items, menus[i].sections[j].title)
  {
    seq(|menus|, i requires 0 <= i < |menus| => NormalizeMenu(menus[i]))
  }

  /** The ids of a list of menus. */
  function MenuIds<T>(menus: seq<Pricing.Menu<T>>): set<string> {
    set i | 0 <= i < |menus| :: menus[i].id
  }

  /** `menuById.get(id)`: a map built from the menus in order, so the last menu with the id wins. */
  function LookupMenu<T>(menus: seq<Pricing.Menu<T>>, id: string): (r: Option<Pricing.Menu<T>>)
    ensures r.Some? <==> id in MenuIds(menus)
    ensures r.Some? ==> r.value.id == id && r.value in menus
    ensures r.Some? ==> exists j :: 0 <= j < |menus| && menus[j] == r.value && (forall k :: j < k < |menus| ==> menus[k].id != id)
    decreases |menus|
  {
    if menus == [] then None
    else
      var init := menus[..|menus| - 1];
      assert forall i :: 0 <= i < |init| ==> init[i] == menus[i];
      assert MenuIds(menus) == MenuIds(init) + {menus[|menus| - 1].id};
      if menus[|menus| - 1].id == id then Some(menus[|menus| - 1]) else LookupMenu(init, id)
  }

  // ----- quantities and selections -----

  /** `selectionMap.get(name) || 0`. */
  function QtyOf(selection: map<string, int>, name: string): int {
    if name in selection then selection[name] else 0
  }

  /** `{ ...item, qty }`: an item together with its selected quantity. */
  datatype Selected = Selected(item: MenuItem, qty: int)

  /** The selected items of one section, in item order. */
  function PicksOf(items: seq<MenuItem>, selection: map<string, int>): (r: seq<Selected>)
    ensures |r| <= |items|
    ensures forall k :: 0 <= k < |r| ==> r[k].qty > 0 && r[k].qty == QtyOf(selection, r[k].item.name) && r[k].item in items
    decreases |items|
  {
    if items == [] then []
    else
      var init := items[..|items| - 1];
      var last := items[|items| - 1];
      assert forall x :: x in init ==> x in items;
      var qty := QtyOf(selection, last.name);
      PicksOf(init, selection) + (if qty > 0 then [Selected(last, qty)] else [])
  }

  /** The selected items of all sections, in section order and then item order. */
  function OrderedOf(sections: seq<Pricing.Section<MenuItem>>, selection: map<string, int>): seq<Selected>
    decreases |sections|
  {
    if sections == [] then []
    else OrderedOf(sections[..|sections| - 1], selection) + PicksOf(sections[|sections| - 1].items, selection)
  }

  /** `getOrderedSelections(menu, selectionMap)`, with its early return for no sections or an empty map. */
  function OrderedSelectionsOf(menu: Pricing.Menu<MenuItem>, selection: map<string, int>): seq<Selected> {
    if |menu.sections| == 0 || |selection| == 0 then [] else OrderedOf(menu.sections, selection)
  }

  lemma {:induction false} PicksOfEmpty(items: seq<MenuItem>)
    ensures PicksOf(items, map[]) == []
    decreases |items|
  {
    if items != [] {
      PicksOfEmpty(items[..|items| - 1]);
    }
  }

  lemma {:induction false} OrderedOfEmpty(sections: seq<Pricing.Section<MenuItem>>)
    ensures OrderedOf(sections, map[]) == []
    decreases |sections|
  {
    if sections != [] {
      OrderedOfEmpty(sections[..|sections| - 1]);
      PicksOfEmpty(sections[|sections| - 1].items);
    }
  }

  /** The early return of `getOrderedSelections` gives what the loops would have given anyway. */
  lemma OrderedSelectionsShortcut(menu: Pricing.Menu<MenuItem>, selection: map<string, int>)
    ensures OrderedSelectionsOf(menu, selection) == OrderedOf(menu.sections, selection)
  {
    if |selection| == 0 {
      assert selection == map[];
      OrderedOfEmpty(menu.sections);
    }
  }

  /** A pick of a section is exactly an item of it with a positive quantity, carrying that quantity. */
  lemma {:induction false} PicksOfExactly(items: seq<MenuItem>, selection: map<string, int>, s: Selected)
    ensures s in PicksOf(items, selection) <==>
      s.item in items && s.qty == QtyOf(selection, s.item.name) && s.qty > 0
    decreases |items|
  {
    if items != [] {
      var init := items[..|items| - 1];
      var last := items[|items| - 1];
      assert items == init + [last];
      PicksOfExactly(init, selection, s);
    }
  }

  /** The selections of a list of sections are exactly their items with a positive quantity. */
  lemma {:induction false} OrderedOfExactly(sections: seq<Pricing.Section<MenuItem>>, selection: map<string, int>, s: Selected)
    ensures s in OrderedOf(sections, selection) <==>
      && s.qty == QtyOf(selection, s.item.name) && s.qty > 0
      && exists j :: 0 <= j < |sections| && s.item in sections[j].items
    decreases |sections|
  {
    if sections != [] {
      var init := sections[..|sections| - 1];
      var last := sections[|sections| - 1];
      OrderedOfExactly(init, selection, s);
      PicksOfExactly(last.items, selection, s);
      if exists j :: 0 <= j < |sections| && s.item in sections[j].items {
        var j :| 0 <= j < |sections| && s.item in sections[j].items;
        if j < |init| {
          assert init[j] == sections[j];
        }
      }
      if exists j :: 0 <= j < |init| && s.item in init[j].items {
        var j :| 0 <= j < |init| && s.item in init[j].items;
        assert sections[j] == init[j];
      }
    }
  }

  /** The ordered selections are exactly the menu's items with a positive quantity, each with that quantity. */
  lemma OrderedSelectionsExactly(menu: Pricing.Menu<MenuItem>, selection: map<string, int>, s: Selected)
    ensures s in OrderedSelectionsOf(menu, selection) <==>
      && s.qty == QtyOf(selection, s.item.name) && s.qty > 0
      && exists j :: 0 <= j < |menu.sections| && s.item in menu.sections[j].items
  {
    OrderedSelectionsShortcut(menu, selection);
    OrderedOfExactly(menu.sections, selection, s);
  }

  /** `getOrderedSelections`: a push for every item with a positive quantity, section by section. */
  method OrderedSelections(menu: Pricing.Menu<MenuItem>, selection: map<string, int>) returns (ordered: seq<Selected>)
    ensures ordered == OrderedSelectionsOf(menu, selection)
  {
    if |menu.sections| == 0 || |selection| == 0 {
      return [];
    }
    ordered := [];
    for j := 0 to |menu.sections|
      invariant ordered == OrderedOf(menu.sections[..j], selection)
    {
      var section := menu.sections[j];
      ghost var before := ordered;
      for k := 0 to |section.items|
        invariant ordered == before + PicksOf(section.items[..k], selection)
      {
        var item := section.items[k];
        var qty := QtyOf(selection, item.name);
        assert section.items[..k + 1][..k] == section.items[..k];
        if qty > 0 {
          ordered := ordered + [Selected(item, qty)];
        }
      }
      assert section.items[..|section.items|] == section.items;
      assert menu.sections[..j + 1][..j] == menu.sections[..j];
    }
    assert menu.sections[..|menu.sections|] == menu.sections;
  }

  // ----- grouped by section -----

  /** A section heading with the selections under it. */
  datatype Group = Group(title: string, items: seq<Selected>)

  /** `section.title || 'Selections'`. */
  function GroupTitle(title: Option<string>): (r: string)
    ensures r != ""
    ensures Pricing.Truthy(title) ==> r == title.value
    ensures !Pricing.Truthy(title) ==> r == "Selections"
  {
    if Pricing.Truthy(title) then title.value else "Selections"
  }

  /** One group per section that has a selection, in section order. */
  function GroupsOf(sections: seq<Pricing.Section<MenuItem>>, selection: map<string, int>): (r: seq<Group>)
    ensures forall g :: g in r ==> g.items != [] && g.title != ""
    ensures forall g :: g in r ==> exists s :: s in sections && g == Group(GroupTitle(s.title), PicksOf(s.items, selection))
    decreases |sections|
  {
    if sections == [] then []
    else
      var init := sections[..|sections| - 1];
      var last := sections[|sections| - 1];
      var matches := PicksOf(last.items, selection);
      assert forall s :: s in init ==> s in sections;
      GroupsOf(init, selection) + (if matches == [] then [] else [Group(GroupTitle(last.title), matches)])
  }

  /** Grouping two runs of sections one after the other gives their groups in that order. */
  lemma {:induction false} GroupsOfConcat(a: seq<Pricing.Section<MenuItem>>, b: seq<Pricing.Section<MenuItem>>, selection: map<string, int>)
    ensures GroupsOf(a + b, selection) == GroupsOf(a, selection) + GroupsOf(b, selection)
    decreases |b|
  {
    if b == [] {
      assert a + b == a;
    } else {
      var init := b[..|b| - 1];
      assert (a + b)[..|a + b| - 1] == a + init;
      assert (a + b)[|a + b| - 1] == b[|b| - 1];
      GroupsOfConcat(a, init, selection);
    }
  }

  /** One section gives one group under its title when it has picks, and none otherwise. */
  lemma GroupsOfSingle(section: Pricing.Section<MenuItem>, selection: map<string, int>)
    ensures GroupsOf([section], selection) ==
      if PicksOf(section.items, selection) == [] then [] else [Group(GroupTitle(section.title), PicksOf(section.items, selection))]
  {
    assert [section][..0] == [];
  }

  /** `getSectionSelections(menu, selectionMap)`, with its early return. */
  function SectionSelectionsOf(menu: Pricing.Menu<MenuItem>, selection: map<string, int>): seq<Group> {
    if |menu.sections| == 0 || |selection| == 0 then [] else GroupsOf(menu.sections, selection)
  }

  /** The items of the groups, one group after the other. */
  function Flatten(groups: seq<Group>): seq<Selected>
    decreases |groups|
  {
    if groups == [] then [] else Flatten(groups[..|groups| - 1]) + groups[|groups| - 1].items
  }

  /** The grouped selections hold exactly the ordered selections, in the same order. */
  lemma {:induction false} FlattenGroupsOf(sections: seq<Pricing.Section<MenuItem>>, selection: map<string, int>)
    ensures Flatten(GroupsOf(sections, selection)) == OrderedOf(sections, selection)
    decreases |sections|
  {
    if sections != [] {
      var init := sections[..|sections| - 1];
      var last := sections[|sections| - 1];
      var matches := PicksOf(last.items, selection);
      FlattenGroupsOf(init, selection);
      var g := GroupsOf(init, selection);
      if matches == [] {
        assert GroupsOf(sections, selection) == g;
      } else {
        var gs := g + [Group(GroupTitle(last.title), matches)];
        assert gs[..|gs| - 1] == g;
      }
    }
  }

  /** `getSectionSelections` and `getOrderedSelections` agree: the groups flatten to the ordered list. */
  lemma SectionSelectionsFlatten(menu: Pricing.Menu<MenuItem>, selection: map<string, int>)
    ensures Flatten(SectionSelectionsOf(menu, selection)) == OrderedSelectionsOf(menu, selection)
  {
    FlattenGroupsOf(menu.sections, selection);
  }

  /** `getSectionSelections`: the matches of each section, pushed as a group when there are any. */
  method SectionSelections(menu: Pricing.Menu<MenuItem>, selection: map<string, int>) returns (grouped: seq<Group>)
    ensures grouped == SectionSelectionsOf(menu, selection)
  {
    grouped := [];
    if |menu.sections| == 0 || |selection| == 0 {
      return;
    }
    for j := 0 to |menu.sections|
      invariant grouped == GroupsOf(menu.sections[..j], selection)
    {
      var section := menu.sections[j];
      var matches := [];
      for k := 0 to |section.items|
        invariant matches == PicksOf(section.items[..k], selection)
      {
        var item := section.items[k];
        var qty := QtyOf(selection, item.name);
        assert section.items[..k + 1][..k] == section.items[..k];
        if qty > 0 {
          matches := matches + [Selected(item, qty)];
        }
      }
      assert section.items[..|section.items|] == section.items;
      assert menu.sections[..j + 1][..j] == menu.sections[..j];
      if |matches| > 0 {
        grouped := grouped + [Group(GroupTitle(section.title), matches)];
      }
    }
    assert menu.sections[..|menu.sections|] == menu.sections;
  }

  // ----- beverage add-ons -----

  /** A beverage add-on of the data: `id`, `label` (here `displayLabel`), `name`, `fixed_price`, `per_person_price`. */
  datatype Addon = Addon(id: string, displayLabel: string, name: string, fixedPrice: Option<real>, perPersonPrice: Option<real>)

  /** `{ ...addon, qty }`. */
  datatype SelectedAddon = SelectedAddon(addon: Addon, qty: int)

  /** `addon.id || addon.label`: the key an add-on button stores its quantity under. */
  function AddonKey(addon: Addon): string {
    if addon.id != "" then addon.id else addon.displayLabel
  }

  /** `getAddonSelections(selectionMap)`: the add-ons whose `id` has a positive quantity, in add-on order. */
  function AddonSelectionsOf(addons: seq<Addon>, selection: map<string, int>): (r: seq<SelectedAddon>)
    ensures |r| <= |addons|
    ensures forall k :: 0 <= k < |r| ==> r[k].qty > 0 && r[k].qty == QtyOf(selection, r[k].addon.id) && r[k].addon in addons
    decreases |addons|
  {
    if addons == [] then []
    else
      var init := addons[..|addons| - 1];
      var last := addons[|addons| - 1];
      assert forall x :: x in init ==> x in addons;
      var qty := QtyOf(selection, last.id);
      AddonSelectionsOf(init, selection) + (if qty > 0 then [SelectedAddon(last, qty)] else [])
  }

  /** Every add-on whose `id` has a positive quantity is listed. */
  lemma {:induction false} AddonSelectionsComplete(addons: seq<Addon>, selection: map<string, int>, a: Addon)
    requires a in addons && QtyOf(selection, a.id) > 0
    ensures SelectedAddon(a, QtyOf(selection, a.id)) in AddonSelectionsOf(addons, selection)
    decreases |addons|
  {
    var init := addons[..|addons| - 1];
    if a != addons[|addons| - 1] {
      assert addons == init + [addons[|addons| - 1]];
      AddonSelectionsComplete(init, selection, a);
    }
  }

  /** With no add-on quantities no add-on is listed. */
  lemma {:induction false} AddonSelectionsOfEmpty(addons: seq<Addon>)
    ensures AddonSelectionsOf(addons, map[]) == []
    decreases |addons|
  {
    if addons != [] {
      AddonSelectionsOfEmpty(addons[..|addons| - 1]);
    }
  }

  /**
   * An add-on without an `id` is stored under its label but looked up by its
   * empty `id`, so it never shows among the selected add-ons.
   */
  lemma AddonWithoutIdNeverListed(addons: seq<Addon>, selection: map<string, int>)
    requires "" !in selection
    ensures forall s :: s in AddonSelectionsOf(addons, selection) ==> s.addon.id != ""
  {
  }

  // ----- guests -----

  /** `Number(guestInput.min) || 10`: the input's minimum, or 10 when it is missing or zero. */
  function MinGuests(minAttr: Option<int>): int {
    if minAttr.None? || minAttr.value == 0 then 10 else minAttr.value
  }

  /** `normalizeGuestCount()`: the typed count, never below the minimum; the minimum when nothing parses. */
  function NormalizeGuestCount(minAttr: Option<int>, value: string): (n: int)
    ensures n >= MinGuests(minAttr)
    ensures ParseInt(value).None? ==> n == MinGuests(minAttr)
    ensures ParseInt(value).Some? ==> n == ParseInt(value).value || (n == MinGuests(minAttr) && ParseInt(value).value < n)
  {
    var min := MinGuests(minAttr);
    match ParseInt(value)
    case None => min
    case Some(parsed) => if parsed > min then parsed else min
  }

  /** Writing the normalised count back into the input (on blur) does not change the count read from it. */
  lemma GuestCountWriteBack(minAttr: Option<int>, value: string)
    ensures NormalizeGuestCount(minAttr, IntToString(NormalizeGuestCount(minAttr, value))) == NormalizeGuestCount(minAttr, value)
  {
    ParseIntOfIntToString(NormalizeGuestCount(minAttr, value));
  }

  /** `getPerPersonPrice(item).value`: the per-person price, or 0 when the item has none. */
  function PerPersonPrice(item: MenuItem): (p: real)
    ensures item.perPerson.None? ==> p == 0.0
    ensures item.perPerson.Some? ==> p == item.perPerson.value
  {
    item.perPerson.GetOr(0.0)
  }
}
