/** The menu flattening of the bottom sheet builder: a menu of at most two levels
    (top-level entries, each optionally owning a submenu of leaf entries) becomes a
    flat, ordered list of presentation items. */
module Menu {
  import opened Wrappers

  /** One entry of an inflated menu: an identifier standing for the toolkit's menu item
      (the item a click is later reported with) and its title, None when it is null. */
  datatype Entry = Entry(id: int, title: Option<string>)

  /** A top-level entry of the menu and, when it owns one, the entries of its submenu. */
  datatype TopEntry = TopEntry(entry: Entry, subMenu: Option<seq<Entry>>)

  /** The style tokens the builder hands to the items it creates. */
  datatype Style = Style(dividerBackground: int, titleTextColor: int, itemTextColor: int, itemBackground: int)

  /** A presentation item of the flat list. */
  datatype Item =
    | Divider(background: int)
    | Header(title: string, textColor: int)
    | MenuItem(entry: Entry, textColor: int, background: int)

  predicate Grouped(e: TopEntry) {
    e.subMenu.Some?
  }

  /** A title produces a header only when it is neither null nor empty. */
  predicate Titled(e: Entry) {
    e.title.Some? && e.title.value != ""
  }

  function EntryItem(e: Entry, st: Style): Item {
    MenuItem(e, st.itemTextColor, st.itemBackground)
  }

  /** One menu item per submenu entry, in submenu order. */
  function ChildItems(children: seq<Entry>, st: Style): (r: seq<Item>)
    ensures |r| == |children|
    ensures forall j :: 0 <= j < |children| ==> r[j] == EntryItem(children[j], st)
  {
    if children == [] then [] else [EntryItem(children[0], st)] + ChildItems(children[1..], st)
  }

  /** Appending one more submenu entry appends one more menu item. */
  lemma {:induction false} ChildItemsSnoc(children: seq<Entry>, j: nat, st: Style)
    requires j < |children|
    ensures ChildItems(children[..j + 1], st) == ChildItems(children[..j], st) + [EntryItem(children[j], st)]
  {
    var l, r := ChildItems(children[..j + 1], st), ChildItems(children[..j], st) + [EntryItem(children[j], st)];
    assert |l| == |r|;
    forall k | 0 <= k < |l| ensures l[k] == r[k] {
      assert children[..j + 1][k] == children[k];
    }
  }

  /** The items contributed by the top-level entry `e` found at index `i` of the menu. */
  function EntryItems(e: TopEntry, i: nat, st: Style): seq<Item> {
    match e.subMenu
    case None => [EntryItem(e.entry, st)]
    case Some(children) =>
      (if i != 0 then [Divider(st.dividerBackground)] else [])
      + (if Titled(e.entry) then [Header(e.entry.title.value, st.titleTextColor)] else [])
      + ChildItems(children, st)
  }

  /** The flat list built from the first `n` top-level entries. */
  function FlattenPrefix(menu: seq<TopEntry>, n: nat, st: Style): seq<Item>
    requires n <= |menu|
  {
    if n == 0 then [] else FlattenPrefix(menu, n - 1, st) + EntryItems(menu[n - 1], n - 1, st)
  }

  /** The flat list built from the whole menu. */
  function Flatten(menu: seq<TopEntry>, st: Style): seq<Item> {
    FlattenPrefix(menu, |menu|, st)
  }

  // Reference definitions, independent of the construction of the list.

  /** 1 if the entry is preceded by a divider: it is grouped and not the first entry. */
  function DividerSlot(e: TopEntry, i: nat): nat {
    if Grouped(e) && i != 0 then 1 else 0
  }

  /** 1 if the entry contributes a header: it is grouped and titled. */
  function HeaderSlot(e: TopEntry): nat {
    if Grouped(e) && Titled(e.entry) then 1 else 0
  }

  /** How many items the entry at index `i` contributes. */
  function EntrySize(e: TopEntry, i: nat): nat {
    match e.subMenu
    case None => 1
    case Some(children) => DividerSlot(e, i) + HeaderSlot(e) + |children|
  }

  /** Where the items of the entry at index `n` start: the sum of the sizes of the entries before it. */
  function Offset(menu: seq<TopEntry>, n: nat): nat
    requires n <= |menu|
  {
    if n == 0 then 0 else Offset(menu, n - 1) + EntrySize(menu[n - 1], n - 1)
  }

  /** The menu entries that end up as menu items, in menu order: an ungrouped entry itself,
      a grouped one's submenu entries. */
  function Leaves(menu: seq<TopEntry>): seq<Entry> {
    if menu == [] then []
    else
      var last := menu[|menu| - 1];
      Leaves(menu[..|menu| - 1]) + (match last.subMenu case None => [last.entry] case Some(children) => children)
  }

  /** The titles of the grouped, titled entries, in menu order. */
  function GroupTitles(menu: seq<TopEntry>): seq<string> {
    if menu == [] then []
    else
      var last := menu[|menu| - 1];
      GroupTitles(menu[..|menu| - 1]) + (if Grouped(last) && Titled(last.entry) then [last.entry.title.value] else [])
  }

  /** The entries carried by the menu items of a flat list, in list order. */
  function MenuEntries(items: seq<Item>): seq<Entry> {
    if items == [] then []
    else (if items[0].MenuItem? then [items[0].entry] else []) + MenuEntries(items[1..])
  }

  /** The titles carried by the headers of a flat list, in list order. */
  function HeaderTitles(items: seq<Item>): seq<string> {
    if items == [] then []
    else (if items[0].Header? then [items[0].title] else []) + HeaderTitles(items[1..])
  }

  /** Every item carries the style token of its kind. */
  predicate Styled(item: Item, st: Style) {
    match item
    case Divider(bg) => bg == st.dividerBackground
    case Header(_, color) => color == st.titleTextColor
    case MenuItem(_, color, bg) => color == st.itemTextColor && bg == st.itemBackground
  }

  // Lemmas

  lemma EntryItemsSize(e: TopEntry, i: nat, st: Style)
    ensures |EntryItems(e, i, st)| == EntrySize(e, i)
  {
  }

  /** The length of the flat list is the sum over the entries of their sizes. */
  lemma {:induction false} FlattenPrefixLength(menu: seq<TopEntry>, n: nat, st: Style)
    requires n <= |menu|
    ensures |FlattenPrefix(menu, n, st)| == Offset(menu, n)
  {
    if n > 0 {
      FlattenPrefixLength(menu, n - 1, st);
      EntryItemsSize(menu[n - 1], n - 1, st);
    }
  }

  lemma FlattenLength(menu: seq<TopEntry>, st: Style)
    ensures |Flatten(menu, st)| == Offset(menu, |menu|)
  {
    FlattenPrefixLength(menu, |menu|, st);
  }

  /** Flattening more entries only appends: earlier items never move. */
  lemma {:induction false} FlattenPrefixGrows(menu: seq<TopEntry>, n: nat, m: nat, st: Style)
    requires n <= m <= |menu|
    ensures FlattenPrefix(menu, n, st) <= FlattenPrefix(menu, m, st)
  {
    if n < m {
      FlattenPrefixGrows(menu, n, m - 1, st);
    }
  }

  /** The items of the entry at index `i` sit, as one block, between Offset(i) and Offset(i + 1). */
  lemma EntryBlock(menu: seq<TopEntry>, st: Style, i: nat)
    requires i < |menu|
    ensures Offset(menu, i) <= Offset(menu, i + 1) <= |Flatten(menu, st)|
    ensures Flatten(menu, st)[Offset(menu, i)..Offset(menu, i + 1)] == EntryItems(menu[i], i, st)
  {
    var all := Flatten(menu, st);
    FlattenPrefixGrows(menu, i + 1, |menu|, st);
    FlattenPrefixLength(menu, i, st);
    FlattenPrefixLength(menu, i + 1, st);
    FlattenPrefixLength(menu, |menu|, st);
    var upto := FlattenPrefix(menu, i + 1, st);
    assert upto == FlattenPrefix(menu, i, st) + EntryItems(menu[i], i, st);
    assert all[..Offset(menu, i + 1)] == upto;
    assert all[Offset(menu, i)..Offset(menu, i + 1)] == upto[Offset(menu, i)..];
  }

  /** The block of a grouped entry that is not first opens with a divider carrying the divider
      background, and no other block opens with a divider. */
  lemma DividerPlacement(menu: seq<TopEntry>, st: Style, i: nat)
    requires i < |menu|
    ensures Offset(menu, i + 1) <= |Flatten(menu, st)|
    ensures Grouped(menu[i]) && i != 0 ==> Flatten(menu, st)[Offset(menu, i)] == Divider(st.dividerBackground)
    ensures (Grouped(menu[i]) && i != 0) <==>
            (Offset(menu, i) < Offset(menu, i + 1) && Flatten(menu, st)[Offset(menu, i)].Divider?)
  {
    EntryBlock(menu, st, i);
    var block := EntryItems(menu[i], i, st);
    assert Offset(menu, i) < Offset(menu, i + 1) ==> Flatten(menu, st)[Offset(menu, i)] == block[0];
  }

  /** A grouped entry contributes a header right after its divider (if any) exactly when it is
      titled; the header carries its title and the title text colour. */
  lemma HeaderPlacement(menu: seq<TopEntry>, st: Style, i: nat)
    requires i < |menu|
    ensures Offset(menu, i + 1) <= |Flatten(menu, st)|
    ensures var p := Offset(menu, i) + DividerSlot(menu[i], i);
            (Grouped(menu[i]) && Titled(menu[i].entry) ==>
               p < Offset(menu, i + 1) && Flatten(menu, st)[p] == Header(menu[i].entry.title.value, st.titleTextColor))
            && ((p < Offset(menu, i + 1) && Flatten(menu, st)[p].Header?) ==> Grouped(menu[i]) && Titled(menu[i].entry))
  {
    EntryBlock(menu, st, i);
    var block := EntryItems(menu[i], i, st);
    var p := Offset(menu, i) + DividerSlot(menu[i], i);
    assert p < Offset(menu, i + 1) ==> Flatten(menu, st)[p] == block[DividerSlot(menu[i], i)];
  }

  /** The submenu entries of a grouped entry follow its divider and header, one menu item each,
      in submenu order, and end its block. */
  lemma ChildPlacement(menu: seq<TopEntry>, st: Style, i: nat, j: nat)
    requires i < |menu| && Grouped(menu[i]) && j < |menu[i].subMenu.value|
    ensures Offset(menu, i + 1) <= |Flatten(menu, st)|
    ensures var start := Offset(menu, i) + DividerSlot(menu[i], i) + HeaderSlot(menu[i]);
            Offset(menu, i + 1) == start + |menu[i].subMenu.value|
            && Flatten(menu, st)[start + j] == EntryItem(menu[i].subMenu.value[j], st)
  {
    EntryBlock(menu, st, i);
    var k := DividerSlot(menu[i], i) + HeaderSlot(menu[i]) + j;
    assert Flatten(menu, st)[Offset(menu, i) + k] == EntryItems(menu[i], i, st)[k];
  }

  /** An ungrouped entry contributes exactly one menu item for itself, with the same style tokens
      as submenu entries. */
  lemma UngroupedPlacement(menu: seq<TopEntry>, st: Style, i: nat)
    requires i < |menu| && !Grouped(menu[i])
    ensures Offset(menu, i + 1) == Offset(menu, i) + 1 <= |Flatten(menu, st)|
    ensures Flatten(menu, st)[Offset(menu, i)] == MenuItem(menu[i].entry, st.itemTextColor, st.itemBackground)
  {
    EntryBlock(menu, st, i);
    assert Flatten(menu, st)[Offset(menu, i)] == EntryItems(menu[i], i, st)[0];
  }

  /** A menu without submenus flattens to one menu item per entry, in menu order, with no
      headers and no dividers. */
  lemma {:induction false} FlatMenu(menu: seq<TopEntry>, st: Style, n: nat)
    requires n <= |menu|
    requires forall i :: 0 <= i < |menu| ==> !Grouped(menu[i])
    ensures |FlattenPrefix(menu, n, st)| == n
    ensures forall i :: 0 <= i < n ==> FlattenPrefix(menu, n, st)[i] == EntryItem(menu[i].entry, st)
  {
    if n > 0 {
      FlatMenu(menu, st, n - 1);
    }
  }

  lemma UngroupedMenu(menu: seq<TopEntry>, st: Style)
    requires forall i :: 0 <= i < |menu| ==> !Grouped(menu[i])
    ensures |Flatten(menu, st)| == |menu|
    ensures forall i :: 0 <= i < |menu| ==> Flatten(menu, st)[i] == MenuItem(menu[i].entry, st.itemTextColor, st.itemBackground)
    ensures forall i :: 0 <= i < |menu| ==> !Flatten(menu, st)[i].Header? && !Flatten(menu, st)[i].Divider?
  {
    FlatMenu(menu, st, |menu|);
  }

  /** Every item of the flat list carries the style token of its kind. */
  lemma {:induction false} FlattenPrefixStyled(menu: seq<TopEntry>, n: nat, st: Style)
    requires n <= |menu|
    ensures forall k :: 0 <= k < |FlattenPrefix(menu, n, st)| ==> Styled(FlattenPrefix(menu, n, st)[k], st)
  {
    if n > 0 {
      FlattenPrefixStyled(menu, n - 1, st);
      var block := EntryItems(menu[n - 1], n - 1, st);
      assert forall k :: 0 <= k < |block| ==> Styled(block[k], st);
    }
  }

  lemma {:induction false} MenuEntriesAppend(a: seq<Item>, b: seq<Item>)
    ensures MenuEntries(a + b) == MenuEntries(a) + MenuEntries(b)
  {
    if a != [] {
      assert (a + b)[0] == a[0];
      assert (a + b)[1..] == a[1..] + b;
      MenuEntriesAppend(a[1..], b);
    } else {
      assert a + b == b;
    }
  }

  lemma {:induction false} HeaderTitlesAppend(a: seq<Item>, b: seq<Item>)
    ensures HeaderTitles(a + b) == HeaderTitles(a) + HeaderTitles(b)
  {
    if a != [] {
      assert (a + b)[0] == a[0];
      assert (a + b)[1..] == a[1..] + b;
      HeaderTitlesAppend(a[1..], b);
    } else {
      assert a + b == b;
    }
  }

  lemma {:induction false} ChildItemsEntries(children: seq<Entry>, st: Style)
    ensures MenuEntries(ChildItems(children, st)) == children
    ensures HeaderTitles(ChildItems(children, st)) == []
  {
    if children != [] {
      var r := ChildItems(children, st);
      assert r[1..] == ChildItems(children[1..], st);
      ChildItemsEntries(children[1..], st);
    }
  }

  lemma EntryItemsEntries(e: TopEntry, i: nat, st: Style)
    ensures MenuEntries(EntryItems(e, i, st)) == (match e.subMenu case None => [e.entry] case Some(children) => children)
    ensures HeaderTitles(EntryItems(e, i, st)) == (if Grouped(e) && Titled(e.entry) then [e.entry.title.value] else [])
  {
    match e.subMenu
    case None =>
    case Some(children) =>
      var d: seq<Item> := if i != 0 then [Divider(st.dividerBackground)] else [];
      var h: seq<Item> := if Titled(e.entry) then [Header(e.entry.title.value, st.titleTextColor)] else [];
      MenuEntriesAppend(d + h, ChildItems(children, st));
      MenuEntriesAppend(d, h);
      HeaderTitlesAppend(d + h, ChildItems(children, st));
      HeaderTitlesAppend(d, h);
      ChildItemsEntries(children, st);
  }

  /** The menu items of the flat list carry exactly the menu's leaf entries, in menu order, and
      its headers exactly the titles of the titled groups, in menu order. */
  lemma {:induction false} FlattenPrefixOrder(menu: seq<TopEntry>, n: nat, st: Style)
    requires n <= |menu|
    ensures MenuEntries(FlattenPrefix(menu, n, st)) == Leaves(menu[..n])
    ensures HeaderTitles(FlattenPrefix(menu, n, st)) == GroupTitles(menu[..n])
  {
    if n > 0 {
      FlattenPrefixOrder(menu, n - 1, st);
      assert menu[..n][..n - 1] == menu[..n - 1];
      MenuEntriesAppend(FlattenPrefix(menu, n - 1, st), EntryItems(menu[n - 1], n - 1, st));
      HeaderTitlesAppend(FlattenPrefix(menu, n - 1, st), EntryItems(menu[n - 1], n - 1, st));
      EntryItemsEntries(menu[n - 1], n - 1, st);
    }
  }

  lemma FlattenOrder(menu: seq<TopEntry>, st: Style)
    ensures MenuEntries(Flatten(menu, st)) == Leaves(menu)
    ensures HeaderTitles(Flatten(menu, st)) == GroupTitles(menu)
  {
    FlattenPrefixOrder(menu, |menu|, st);
    assert menu[..|menu|] == menu;
  }

  /** The list never opens with a divider when the first entry contributes at least one item. */
  lemma NoLeadingDivider(menu: seq<TopEntry>, st: Style)
    requires |menu| > 0 && EntrySize(menu[0], 0) > 0
    ensures |Flatten(menu, st)| > 0 && !Flatten(menu, st)[0].Divider?
  {
    DividerPlacement(menu, st, 0);
  }

  /** ... but an untitled first group with an empty submenu contributes nothing, so a grouped
      second entry's divider opens the list. */
  lemma LeadingDividerAfterEmptyGroup(st: Style)
    ensures var menu := [TopEntry(Entry(1, None), Some([])), TopEntry(Entry(2, Some("T")), Some([Entry(3, None)]))];
            Flatten(menu, st) == [Divider(st.dividerBackground), Header("T", st.titleTextColor), EntryItem(Entry(3, None), st)]
  {
    var menu := [TopEntry(Entry(1, None), Some([])), TopEntry(Entry(2, Some("T")), Some([Entry(3, None)]))];
    assert FlattenPrefix(menu, 1, st) == [];
    assert ChildItems([Entry(3, None)], st) == [EntryItem(Entry(3, None), st)];
  }

  /** A titled first group of three followed by an ungrouped entry: a header, then four menu items. */
  lemma TitledGroupThenEntry(st: Style)
    ensures var menu := [TopEntry(Entry(0, Some("T")), Some([Entry(1, None), Entry(2, None), Entry(3, None)])),
                         TopEntry(Entry(4, None), None)];
            Flatten(menu, st) == [Header("T", st.titleTextColor), EntryItem(Entry(1, None), st),
                                  EntryItem(Entry(2, None), st), EntryItem(Entry(3, None), st),
                                  EntryItem(Entry(4, None), st)]
  {
    var children := [Entry(1, None), Entry(2, None), Entry(3, None)];
    var menu := [TopEntry(Entry(0, Some("T")), Some(children)), TopEntry(Entry(4, None), None)];
    assert ChildItems(children, st) == [EntryItem(Entry(1, None), st), EntryItem(Entry(2, None), st), EntryItem(Entry(3, None), st)];
    assert FlattenPrefix(menu, 1, st) == [Header("T", st.titleTextColor)] + ChildItems(children, st);
  }

  /** An untitled group after another entry: a divider, then its two menu items, no header. */
  lemma UntitledSecondGroup(st: Style)
    ensures var menu := [TopEntry(Entry(0, None), None), TopEntry(Entry(1, Some("")), Some([Entry(2, None), Entry(3, None)]))];
            Flatten(menu, st) == [EntryItem(Entry(0, None), st), Divider(st.dividerBackground),
                                  EntryItem(Entry(2, None), st), EntryItem(Entry(3, None), st)]
  {
    var children := [Entry(2, None), Entry(3, None)];
    var menu := [TopEntry(Entry(0, None), None), TopEntry(Entry(1, Some("")), Some(children))];
    assert ChildItems(children, st) == [EntryItem(Entry(2, None), st), EntryItem(Entry(3, None), st)];
    assert FlattenPrefix(menu, 1, st) == [EntryItem(Entry(0, None), st)];
  }
}
