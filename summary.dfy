/**
 * `updateSummary` in `js/main.js`: the plain-text summary of the builder's
 * state written into the inquiry form, one line per heading, selected item
 * and add-on, then the estimate breakdown. Money is shown through the site's
 * currency formatter, which is a parameter here.
 */
module Summary {
  import opened Wrappers
  import opened Text
  import opened Selections

  /** `qty > 1 ? ` x${qty}` : ''`. */
  function QtyTag(qty: int): (tag: string)
    ensures tag == "" <==> qty <= 1
    ensures tag != "" ==> StartsWith(tag, " x") && tag[2..] == IntToString(qty)
  {
    if qty > 1 then " x" + IntToString(qty) else ""
  }

  /** ` (price each)` for a fixed-price item, ` (price/guest)` for a non-zero per-person price, else nothing. */
  function ItemPriceLabel(item: MenuItem, currency: real -> string): string {
    if item.fixedPrice.Some? then " (" + currency(item.fixedPrice.value) + " each)"
    else if PerPersonPrice(item) != 0.0 then " (" + currency(PerPersonPrice(item)) + "/guest)"
    else ""
  }

  /** `- name xQty (price)`. */
  function ItemLine(s: Selected, currency: real -> string): (line: string)
    ensures StartsWith(line, "- " + s.item.name)
  {
    "- " + s.item.name + QtyTag(s.qty) + ItemPriceLabel(s.item, currency)
  }

  /** One line per element, in order: `xs.forEach((x) => lines.push(line(x)))`. */
  function LinesOf<T>(xs: seq<T>, line: T -> string): (lines: seq<string>)
    ensures |lines| == |xs|
    ensures forall k :: 0 <= k < |xs| ==> lines[k] == line(xs[k])
    decreases |xs|
  {
    if xs == [] then []
    else
      var init := xs[..|xs| - 1];
      assert forall k :: 0 <= k < |init| ==> init[k] == xs[k];
      LinesOf(init, line) + [line(xs[|xs| - 1])]
  }

  /** Taking one more element adds its line at the end. */
  lemma LinesOfSnoc<T>(xs: seq<T>, k: nat, line: T -> string)
    requires k < |xs|
    ensures LinesOf(xs[..k + 1], line) == LinesOf(xs[..k], line) + [line(xs[k])]
  {
    assert xs[..k + 1][..k] == xs[..k];
  }

  /** One line per selected item, in order. */
  function ItemLines(items: seq<Selected>, currency: real -> string): seq<string> {
    LinesOf(items, s => ItemLine(s, currency))
  }

  /** `${group.title}:`. */
  function GroupHeading(title: string): string {
    title + ":"
  }

  /** A group's heading followed by its item lines. */
  function GroupLines(g: Group, currency: real -> string): seq<string> {
    [GroupHeading(g.title)] + ItemLines(g.items, currency)
  }

  /** The lines of all groups, one group after the other. */
  function GroupsLines(groups: seq<Group>, currency: real -> string): seq<string>
    decreases |groups|
  {
    if groups == [] then [] else GroupsLines(groups[..|groups| - 1], currency) + GroupLines(groups[|groups| - 1], currency)
  }

  /** One heading per group and one line per selected item; the first line is the first group's heading. */
  lemma {:induction false} GroupsLinesShape(groups: seq<Group>, currency: real -> string)
    ensures |GroupsLines(groups, currency)| == |groups| + |Flatten(groups)|
    ensures groups != [] ==> GroupsLines(groups, currency)[0] == GroupHeading(groups[0].title)
    decreases |groups|
  {
    if groups != [] {
      var init := groups[..|groups| - 1];
      GroupsLinesShape(init, currency);
      assert init != [] ==> init[0] == groups[0];
    }
  }

  /** Taking one more group adds its lines at the end. */
  lemma GroupsLinesSnoc(groups: seq<Group>, j: nat, currency: real -> string)
    requires j < |groups|
    ensures GroupsLines(groups[..j + 1], currency) == GroupsLines(groups[..j], currency) + GroupLines(groups[j], currency)
  {
    assert groups[..j + 1][..j] == groups[..j];
  }

  /** ` (fixed each, ~per-person/guest)`, with whichever parts the add-on has. */
  function AddonPriceLabel(addon: Addon, currency: real -> string): string {
    var fixedBit := if addon.fixedPrice.Some? then currency(addon.fixedPrice.value) + " each" else "";
    var perGuestBit := if addon.perPersonPrice.Some? then "~" + currency(addon.perPersonPrice.value) + "/guest" else "";
    if addon.fixedPrice.Some? && addon.perPersonPrice.Some? then " (" + fixedBit + ", " + perGuestBit + ")"
    else if addon.fixedPrice.Some? then " (" + fixedBit + ")"
    else if addon.perPersonPrice.Some? then " (" + perGuestBit + ")"
    else ""
  }

  /** `addon.label || addon.name || addon.id`. */
  function AddonDisplayName(addon: Addon): string {
    if addon.displayLabel != "" then addon.displayLabel else if addon.name != "" then addon.name else addon.id
  }

  function AddonLine(s: SelectedAddon, currency: real -> string): string {
    "- " + AddonDisplayName(s.addon) + QtyTag(s.qty) + AddonPriceLabel(s.addon, currency)
  }

  /** One line per selected add-on, in order. */
  function AddonLines(addons: seq<SelectedAddon>, currency: real -> string): seq<string> {
    LinesOf(addons, s => AddonLine(s, currency))
  }

  /** The add-on block: a blank line, its heading and the add-on lines, or nothing without add-ons. */
  function AddonBlock(addons: seq<SelectedAddon>, currency: real -> string): seq<string> {
    if addons == [] then [] else ["", "Beverage add-ons:"] + AddonLines(addons, currency)
  }

  function MenuTypeLine(menuLabel: string): string {
    "Menu type: " + menuLabel
  }

  function GuestsLine(guestCount: int): string {
    "Guests: " + IntToString(guestCount)
  }

  /** The line reporting nothing selected. */
  const NoneSelected := "- None selected"

  function EstimateLine(estimate: real, currency: real -> string): string {
    "Estimated food total: ~" + currency(estimate)
  }

  /** The five lines every summary starts with. */
  function Header(menuLabel: string, guestCount: int): seq<string> {
    ["Menu selection (estimate only)", MenuTypeLine(menuLabel), GuestsLine(guestCount), "", "Selections:"]
  }

  /** The line of the per-guest subtotal: price, guests and their product. */
  const PerGuestPrefix := "Per-guest subtotal: "

  function PerGuestLine(guestCount: int, perGuest: real, currency: real -> string): string {
    PerGuestPrefix + "~" + currency(perGuest) + " x " + IntToString(guestCount) + " = " + currency(perGuest * guestCount as real)
  }

  const BoardsPrefix := "Boards/Stations: "

  /** The estimate breakdown: fixed total and per-guest subtotal when positive, then the estimate. */
  function Breakdown(guestCount: int, fixedTotal: real, perGuest: real, estimate: real, currency: real -> string): seq<string> {
    ["", "Estimate breakdown:"]
    + (if fixedTotal > 0.0 then [BoardsPrefix + currency(fixedTotal)] else [])
    + (if perGuest > 0.0 then [PerGuestLine(guestCount, perGuest, currency)] else [])
    + [EstimateLine(estimate, currency)]
  }

  /** The lines `updateSummary` joins with newlines. */
  function SummaryLines(menuLabel: string, guestCount: int, groups: seq<Group>, addons: seq<SelectedAddon>,
                        fixedTotal: real, perGuest: real, estimate: real, currency: real -> string): seq<string>
  {
    Header(menuLabel, guestCount)
    + (if groups == [] then [NoneSelected] else GroupsLines(groups, currency))
    + AddonBlock(addons, currency)
    + Breakdown(guestCount, fixedTotal, perGuest, estimate, currency)
  }

  /** The summary text written into the form field. */
  function SummaryText(menuLabel: string, guestCount: int, groups: seq<Group>, addons: seq<SelectedAddon>,
                       fixedTotal: real, perGuest: real, estimate: real, currency: real -> string): string
  {
    JoinLines(SummaryLines(menuLabel, guestCount, groups, addons, fixedTotal, perGuest, estimate, currency))
  }

  /**
   * The shape of every summary: the five header lines, then either
   * `- None selected` or the first group's heading, and the estimate as the
   * last line.
   */
  lemma SummaryShape(menuLabel: string, guestCount: int, groups: seq<Group>, addons: seq<SelectedAddon>,
                     fixedTotal: real, perGuest: real, estimate: real, currency: real -> string)
    ensures var lines := SummaryLines(menuLabel, guestCount, groups, addons, fixedTotal, perGuest, estimate, currency);
      && |lines| >= 9
      && lines[..5] == Header(menuLabel, guestCount)
      && (groups == [] ==> lines[5] == NoneSelected)
      && (groups != [] ==> lines[5] == GroupHeading(groups[0].title))
      && lines[|lines| - 1] == EstimateLine(estimate, currency)
  {
    var header := Header(menuLabel, guestCount);
    var body := if groups == [] then [NoneSelected] else GroupsLines(groups, currency);
    var breakdown := Breakdown(guestCount, fixedTotal, perGuest, estimate, currency);
    var rest := AddonBlock(addons, currency) + breakdown;
    assert |body| >= 1 && body[0] == (if groups == [] then NoneSelected else GroupHeading(groups[0].title)) by {
      GroupsLinesShape(groups, currency);
    }
    assert |rest| >= 3 && rest[|rest| - 1] == EstimateLine(estimate, currency) by {
      BreakdownShape(guestCount, fixedTotal, perGuest, estimate, currency);
    }
    assert SummaryLines(menuLabel, guestCount, groups, addons, fixedTotal, perGuest, estimate, currency)
        == header + body + rest by {
      Concat3(header + body, AddonBlock(addons, currency), breakdown);
    }
    Parts(header, body, rest);
  }

  /**
   * The breakdown has at least its heading, blank line and estimate, and ends
   * with the estimate; the `Boards/Stations` line is there exactly when the
   * fixed total is positive, and the per-guest line exactly when the per-guest
   * total is.
   */
  lemma BreakdownShape(guestCount: int, fixedTotal: real, perGuest: real, estimate: real, currency: real -> string)
    ensures var b := Breakdown(guestCount, fixedTotal, perGuest, estimate, currency);
      |b| >= 3 && b[|b| - 1] == EstimateLine(estimate, currency)
    ensures var b := Breakdown(guestCount, fixedTotal, perGuest, estimate, currency);
      (exists i :: 0 <= i < |b| && StartsWith(b[i], BoardsPrefix)) <==> fixedTotal > 0.0
    ensures var b := Breakdown(guestCount, fixedTotal, perGuest, estimate, currency);
      (exists i :: 0 <= i < |b| && StartsWith(b[i], PerGuestPrefix)) <==> perGuest > 0.0
  {
    BoardsLinePresent(guestCount, fixedTotal, perGuest, estimate, currency);
    PerGuestLinePresent(guestCount, fixedTotal, perGuest, estimate, currency);
  }

  /** Every breakdown line is empty, starts with `E`, or is the line of a positive total. */
  lemma BreakdownLines(guestCount: int, fixedTotal: real, perGuest: real, estimate: real, currency: real -> string)
    ensures var b := Breakdown(guestCount, fixedTotal, perGuest, estimate, currency);
      forall i :: 0 <= i < |b| ==>
        b[i] == "" || b[i][0] == 'E'
        || (b[i] == BoardsPrefix + currency(fixedTotal) && fixedTotal > 0.0)
        || (b[i] == PerGuestLine(guestCount, perGuest, currency) && perGuest > 0.0)
  {
  }

  lemma BoardsLinePresent(guestCount: int, fixedTotal: real, perGuest: real, estimate: real, currency: real -> string)
    ensures var b := Breakdown(guestCount, fixedTotal, perGuest, estimate, currency);
      (exists i :: 0 <= i < |b| && StartsWith(b[i], BoardsPrefix)) <==> fixedTotal > 0.0
  {
    var b := Breakdown(guestCount, fixedTotal, perGuest, estimate, currency);
    var boards := BoardsPrefix + currency(fixedTotal);
    assert boards[..|BoardsPrefix|] == BoardsPrefix;
    if fixedTotal > 0.0 {
      assert b[2] == boards;
      assert StartsWith(b[2], BoardsPrefix);
    }
    BreakdownLines(guestCount, fixedTotal, perGuest, estimate, currency);
    forall i | 0 <= i < |b| && StartsWith(b[i], BoardsPrefix)
      ensures fixedTotal > 0.0
    {
      assert b[i][0] == b[i][..|BoardsPrefix|][0] == 'B';
      assert PerGuestLine(guestCount, perGuest, currency)[0] == 'P';
    }
  }

  lemma PerGuestLinePresent(guestCount: int, fixedTotal: real, perGuest: real, estimate: real, currency: real -> string)
    ensures var b := Breakdown(guestCount, fixedTotal, perGuest, estimate, currency);
      (exists i :: 0 <= i < |b| && StartsWith(b[i], PerGuestPrefix)) <==> perGuest > 0.0
  {
    var b := Breakdown(guestCount, fixedTotal, perGuest, estimate, currency);
    var guests := PerGuestLine(guestCount, perGuest, currency);
    assert guests == PerGuestPrefix + ("~" + currency(perGuest) + " x " + IntToString(guestCount) + " = " + currency(perGuest * guestCount as real));
    assert guests[..|PerGuestPrefix|] == PerGuestPrefix;
    if perGuest > 0.0 {
      assert b[|b| - 2] == guests;
      assert StartsWith(b[|b| - 2], PerGuestPrefix);
    }
    BreakdownLines(guestCount, fixedTotal, perGuest, estimate, currency);
    forall i | 0 <= i < |b| && StartsWith(b[i], PerGuestPrefix)
      ensures perGuest > 0.0
    {
      assert b[i][0] == b[i][..|PerGuestPrefix|][0] == 'P';
      assert (BoardsPrefix + currency(fixedTotal))[0] == 'B';
    }
  }

  /** A summary ends with its breakdown. */
  lemma SummaryEndsWithBreakdown(menuLabel: string, guestCount: int, groups: seq<Group>, addons: seq<SelectedAddon>,
                                 fixedTotal: real, perGuest: real, estimate: real, currency: real -> string)
    ensures var lines := SummaryLines(menuLabel, guestCount, groups, addons, fixedTotal, perGuest, estimate, currency);
      var b := Breakdown(guestCount, fixedTotal, perGuest, estimate, currency);
      |b| <= |lines| && lines[|lines| - |b|..] == b
  {
    var b := Breakdown(guestCount, fixedTotal, perGuest, estimate, currency);
    var front := Header(menuLabel, guestCount)
      + (if groups == [] then [NoneSelected] else GroupsLines(groups, currency))
      + AddonBlock(addons, currency);
    assert SummaryLines(menuLabel, guestCount, groups, addons, fixedTotal, perGuest, estimate, currency) == front + b;
    assert (front + b)[|front|..] == b;
  }

  lemma Assoc(w: seq<string>, a: seq<string>, b: seq<string>, c: seq<string>, d: seq<string>)
    ensures w + a + b + c + d == w + (a + b + c + d)
  {
  }

  lemma Concat3(a: seq<string>, b: seq<string>, c: seq<string>)
    ensures a + b + c == a + (b + c)
  {
  }

  /** Where the three parts of a concatenation sit in it. */
  lemma Parts(a: seq<string>, b: seq<string>, c: seq<string>)
    requires |b| >= 1 && |c| >= 1
    ensures var all := a + b + c;
      && |all| == |a| + |b| + |c|
      && all[..|a|] == a
      && (forall i :: 0 <= i < |a| ==> all[i] == a[i])
      && all[|a|] == b[0]
      && all[|all| - 1] == c[|c| - 1]
  {
  }

  /**
   * How many lines a summary has: five header lines, one line per group
   * heading and per selected item (or one for none), two plus one per add-on
   * when there are add-ons, and three to five breakdown lines.
   */
  lemma SummaryLineCount(menuLabel: string, guestCount: int, groups: seq<Group>, addons: seq<SelectedAddon>,
                         fixedTotal: real, perGuest: real, estimate: real, currency: real -> string)
    ensures |SummaryLines(menuLabel, guestCount, groups, addons, fixedTotal, perGuest, estimate, currency)| ==
      5
      + (if groups == [] then 1 else |groups| + |Flatten(groups)|)
      + (if addons == [] then 0 else 2 + |addons|)
      + 3 + (if fixedTotal > 0.0 then 1 else 0) + (if perGuest > 0.0 then 1 else 0)
  {
    GroupsLinesShape(groups, currency);
  }

  /** One group of the `groupedSelections.forEach` pass: its heading, then a line per item. */
  method PushGroup(start: seq<string>, group: Group, currency: real -> string) returns (lines: seq<string>)
    ensures lines == start + GroupLines(group, currency)
  {
    lines := start + [GroupHeading(group.title)];
    for k := 0 to |group.items|
      invariant lines == start + ([GroupHeading(group.title)] + ItemLines(group.items[..k], currency))
    {
      LinesOfSnoc(group.items, k, s => ItemLine(s, currency));
      lines := lines + [ItemLine(group.items[k], currency)];
    }
    assert group.items[..|group.items|] == group.items;
  }

  /** The `groupedSelections.forEach` pass. */
  method PushGroups(start: seq<string>, groups: seq<Group>, currency: real -> string) returns (lines: seq<string>)
    ensures lines == start + GroupsLines(groups, currency)
  {
    lines := start;
    for j := 0 to |groups|
      invariant lines == start + GroupsLines(groups[..j], currency)
    {
      var next := PushGroup(lines, groups[j], currency);
      assert next == start + GroupsLines(groups[..j + 1], currency) by {
        GroupsLinesSnoc(groups, j, currency);
        Concat3(start, GroupsLines(groups[..j], currency), GroupLines(groups[j], currency));
      }
      lines := next;
    }
    assert groups[..|groups|] == groups;
  }

  /** The `addonSelectionsList.forEach` pass, after its blank line and heading. */
  method PushAddons(start: seq<string>, addons: seq<SelectedAddon>, currency: real -> string) returns (lines: seq<string>)
    ensures lines == start + AddonBlock(addons, currency)
  {
    lines := start;
    if |addons| > 0 {
      lines := lines + ["", "Beverage add-ons:"];
      for k := 0 to |addons|
        invariant lines == start + (["", "Beverage add-ons:"] + AddonLines(addons[..k], currency))
      {
        LinesOfSnoc(addons, k, s => AddonLine(s, currency));
        lines := lines + [AddonLine(addons[k], currency)];
      }
      assert addons[..|addons|] == addons;
    }
  }

  /** `updateSummary`: the header, a block per group, the add-ons and the breakdown, pushed line by line. */
  method BuildSummary(menuLabel: string, guestCount: int, groups: seq<Group>, addons: seq<SelectedAddon>,
                      fixedTotal: real, perGuest: real, estimate: real, currency: real -> string)
    returns (lines: seq<string>)
    ensures lines == SummaryLines(menuLabel, guestCount, groups, addons, fixedTotal, perGuest, estimate, currency)
  {
    lines := Header(menuLabel, guestCount);
    if |groups| > 0 {
      lines := PushGroups(lines, groups, currency);
    } else {
      lines := lines + [NoneSelected];
    }
    lines := PushAddons(lines, addons, currency);
    ghost var withAddons := lines;
    ghost var fixedLine: seq<string> := if fixedTotal > 0.0 then ["Boards/Stations: " + currency(fixedTotal)] else [];
    ghost var perGuestLine: seq<string> := if perGuest > 0.0 then [PerGuestLine(guestCount, perGuest, currency)] else [];
    lines := lines + ["", "Estimate breakdown:"];
    if fixedTotal > 0.0 {
      lines := lines + ["Boards/Stations: " + currency(fixedTotal)];
    }
    assert lines == withAddons + ["", "Estimate breakdown:"] + fixedLine;
    if perGuest > 0.0 {
      lines := lines + [PerGuestLine(guestCount, perGuest, currency)];
    }
    assert lines == withAddons + ["", "Estimate breakdown:"] + fixedLine + perGuestLine;
    lines := lines + [EstimateLine(estimate, currency)];
    Assoc(withAddons, ["", "Estimate breakdown:"], fixedLine, perGuestLine, [EstimateLine(estimate, currency)]);
  }
}
