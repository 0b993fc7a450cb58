/** The bottom sheet builder: a configuration object filled in by chained setters, then turned
    into a sheet placed in a coordinator layout or into a modal dialog. What the toolkit would
    build is described by values (Sheet, InlineSheet, Dialog) rather than by views. */
module Builder {
  import opened Wrappers
  import opened Menu
  import GridSizing

  const MODE_LIST: int := 0
  const MODE_GRID: int := 1

  /** Identifies a coordinator layout supplied by the host. */
  type LayoutId = int

  /** Identifies the click listener supplied by the host. */
  type ListenerId = int

  predicate ValidMode(mode: int) {
    mode == MODE_LIST || mode == MODE_GRID
  }

  /** The exceptions the builder throws. */
  datatype Failure = IllegalArgument | IllegalState

  /** Every field of the builder. Resource ids are ints, 0 standing for "not set". */
  datatype Config = Config(
    backgroundDrawable: int,
    backgroundColor: int,
    dividerBackground: int,
    itemBackground: int,
    itemTextColor: int,
    titleTextColor: int,
    theme: int,
    menuRes: int,
    coordinator: Option<LayoutId>,
    listener: Option<ListenerId>,
    mode: int)

  /** The configuration a constructor leaves: every resource unset, no listener, list mode. */
  function Initial(theme: int, coordinator: Option<LayoutId>): Config {
    Config(0, 0, 0, 0, 0, 0, theme, 0, coordinator, None, MODE_LIST)
  }

  function StyleOf(c: Config): Style {
    Style(c.dividerBackground, c.titleTextColor, c.itemTextColor, c.itemBackground)
  }

  /** Which of the two sheet layouts is inflated. */
  datatype SheetLayout = ListLayout | GridLayout

  /** The background given to the sheet's list view. */
  datatype Background = NoBackground | DrawableBackground(drawable: int) | ColorBackground(color: int)

  /** A grid manager has a column count and one span size that its lookup reports for every position. */
  datatype LayoutManager = LinearManager | GridManager(spanCount: int, spanSize: int)

  /** The item adapter: the flat items, the mode and listener it was built with, and the item
      width it was given (grid mode only). */
  datatype Adapter = Adapter(items: seq<Item>, mode: int, listener: Option<ListenerId>, itemWidth: Option<int>)

  /** The adapter of a sheet: none, attached at once, or attached after the first layout pass
      by a posted callback that holds on to the items. */
  datatype AdapterSlot = NoAdapter | Attached(adapter: Adapter) | AfterLayout(pendingItems: seq<Item>)

  /** The sheet view that the common setup builds. */
  datatype Sheet = Sheet(
    layout: SheetLayout,
    background: Background,
    fixedSize: bool,
    manager: Option<LayoutManager>,
    adapter: AdapterSlot,
    shadowVisible: bool)

  /** A sheet added to the coordinator layout `parent`, as wide as the parent, as high as its
      content, with a new bottom sheet behaviour. */
  datatype InlineSheet = InlineSheet(parent: LayoutId, sheet: Sheet)

  datatype DialogTheme = DefaultTheme | Themed(theme: int)

  /** A bottom sheet dialog whose content is the sheet. */
  datatype Dialog = Dialog(theme: DialogTheme, content: Sheet)

  /** The sheet the common setup builds for configuration `c` and the inflated `menu`. */
  function BuildSheet(c: Config, menu: seq<TopEntry>): Sheet {
    var items := Flatten(menu, StyleOf(c));
    Sheet(
      if c.mode == MODE_GRID then GridLayout else ListLayout,
      if c.backgroundDrawable != 0 then DrawableBackground(c.backgroundDrawable)
      else if c.backgroundColor != 0 then ColorBackground(c.backgroundColor)
      else NoBackground,
      true,
      if c.mode == MODE_LIST then Some(LinearManager)
      else if c.mode == MODE_GRID then Some(GridManager(GridSizing.COLUMNS, 1))
      else None,
      if c.mode == MODE_LIST then Attached(Adapter(items, c.mode, c.listener, None))
      else if c.mode == MODE_GRID then AfterLayout(items)
      else NoAdapter,
      true)
  }

  /** The inline sheet, or the failure when no coordinator layout is known. */
  function ViewFor(c: Config, menu: seq<TopEntry>): Result<InlineSheet, Failure> {
    match c.coordinator
    case None => Err(IllegalState)
    case Some(parent) => Ok(InlineSheet(parent, BuildSheet(c, menu)))
  }

  /** The dialog: themed only when a non-zero theme was given; the shadow is hidden. */
  function DialogFor(c: Config, menu: seq<TopEntry>): Dialog {
    Dialog(if c.theme == 0 then DefaultTheme else Themed(c.theme), BuildSheet(c, menu).(shadowVisible := false))
  }

  /** What the callback posted in grid mode does once the sheet has been measured: it builds the
      adapter from the builder's mode and listener as they are when it runs (`c`), gives it the
      grid item width, and attaches it. A sheet without a pending adapter is left as it is. */
  function LaidOut(c: Config, s: Sheet, measuredWidth: int, densityDpi: int): Sheet {
    match s.adapter
    case AfterLayout(items) =>
      s.(adapter := Attached(Adapter(items, c.mode, c.listener, Some(GridSizing.GridItemWidth(measuredWidth, densityDpi)))))
    case _ => s
  }

  class BottomSheetBuilder {
    var backgroundDrawable: int
    var backgroundColor: int
    var dividerBackground: int
    var itemBackground: int
    var itemTextColor: int
    var titleTextColor: int
    var theme: int
    var menuRes: int
    var coordinator: Option<LayoutId>
    var listener: Option<ListenerId>
    var mode: int

    function Snapshot(): Config
      reads this
    {
      Config(backgroundDrawable, backgroundColor, dividerBackground, itemBackground, itemTextColor,
             titleTextColor, theme, menuRes, coordinator, listener, mode)
    }

    /** The only invariant of the builder: the mode is one of the two modes. */
    predicate Valid()
      reads this
    {
      ValidMode(mode)
    }

    /** A builder for a sheet placed in the given coordinator layout (a null layout is None). */
    constructor WithCoordinator(coordinatorLayout: Option<LayoutId>)
      ensures Valid() && Snapshot() == Initial(0, coordinatorLayout)
    {
      backgroundDrawable, backgroundColor, dividerBackground, itemBackground := 0, 0, 0, 0;
      itemTextColor, titleTextColor, theme, menuRes := 0, 0, 0, 0;
      coordinator, listener, mode := coordinatorLayout, None, MODE_LIST;
    }

    /** A builder without theme and without coordinator layout: the themed constructor with theme 0. */
    constructor FromContext()
      ensures Valid() && Snapshot() == Initial(0, None)
    {
      backgroundDrawable, backgroundColor, dividerBackground, itemBackground := 0, 0, 0, 0;
      itemTextColor, titleTextColor, theme, menuRes := 0, 0, 0, 0;
      coordinator, listener, mode := None, None, MODE_LIST;
    }

    /** A builder for a dialog with the given theme; it has no coordinator layout. */
    constructor WithTheme(dialogTheme: int)
      ensures Valid() && Snapshot() == Initial(dialogTheme, None)
    {
      backgroundDrawable, backgroundColor, dividerBackground, itemBackground := 0, 0, 0, 0;
      itemTextColor, titleTextColor, theme, menuRes := 0, 0, dialogTheme, 0;
      coordinator, listener, mode := None, None, MODE_LIST;
    }

    /** Sets the mode; any value other than the two modes throws and changes nothing. */
    method SetMode(newMode: int) returns (r: Result<BottomSheetBuilder, Failure>)
      modifies this
      ensures ValidMode(newMode) ==> r == Ok(this) && Snapshot() == old(Snapshot()).(mode := newMode)
      ensures !ValidMode(newMode) ==> r == Err(IllegalArgument) && Snapshot() == old(Snapshot())
      ensures old(Valid()) ==> Valid()
    {
      if newMode != MODE_LIST && newMode != MODE_GRID {
        return Err(IllegalArgument);
      }
      mode := newMode;
      r := Ok(this);
    }

    method SetItemClickListener(newListener: Option<ListenerId>) returns (self: BottomSheetBuilder)
      modifies this
      ensures self == this && Snapshot() == old(Snapshot()).(listener := newListener)
    {
      listener := newListener;
      self := this;
    }

    method SetMenu(menu: int) returns (self: BottomSheetBuilder)
      modifies this
      ensures self == this && Snapshot() == old(Snapshot()).(menuRes := menu)
    {
      menuRes := menu;
      self := this;
    }

    method SetItemTextColor(color: int) returns (self: BottomSheetBuilder)
      modifies this
      ensures self == this && Snapshot() == old(Snapshot()).(itemTextColor := color)
    {
      itemTextColor := color;
      self := this;
    }

    method SetTitleTextColor(color: int) returns (self: BottomSheetBuilder)
      modifies this
      ensures self == this && Snapshot() == old(Snapshot()).(titleTextColor := color)
    {
      titleTextColor := color;
      self := this;
    }

    method SetBackground(background: int) returns (self: BottomSheetBuilder)
      modifies this
      ensures self == this && Snapshot() == old(Snapshot()).(backgroundDrawable := background)
    {
      backgroundDrawable := background;
      self := this;
    }

    method SetBackgroundColor(background: int) returns (self: BottomSheetBuilder)
      modifies this
      ensures self == this && Snapshot() == old(Snapshot()).(backgroundColor := background)
    {
      backgroundColor := background;
      self := this;
    }

    method SetDividerBackground(background: int) returns (self: BottomSheetBuilder)
      modifies this
      ensures self == this && Snapshot() == old(Snapshot()).(dividerBackground := background)
    {
      dividerBackground := background;
      self := this;
    }

    method SetItemBackground(background: int) returns (self: BottomSheetBuilder)
      modifies this
      ensures self == this && Snapshot() == old(Snapshot()).(itemBackground := background)
    {
      itemBackground := background;
      self := this;
    }

    /** Builds the flat item list from the menu the host inflates for `menuRes`. */
    method AddMenuItems(inflate: int -> seq<TopEntry>) returns (items: seq<Item>)
      ensures items == Flatten(inflate(menuRes), StyleOf(Snapshot()))
    {
      var menu := inflate(menuRes);
      ghost var st := StyleOf(Snapshot());
      items := [];
      var i := 0;
      while i < |menu|
        invariant 0 <= i <= |menu|
        invariant items == FlattenPrefix(menu, i, st)
      {
        var item := menu[i];
        ghost var before := items;
        if item.subMenu.Some? {
          ghost var divider: seq<Item> := if i != 0 then [Divider(st.dividerBackground)] else [];
          ghost var header: seq<Item> := if Titled(item.entry) then [Header(item.entry.title.value, st.titleTextColor)] else [];
          if i != 0 {
            items := items + [Divider(dividerBackground)];
          }
          var title := item.entry.title;
          if title.Some? && title.value != "" {
            items := items + [Header(title.value, titleTextColor)];
          }
          var subMenu := item.subMenu.value;
          ghost var groupStart := items;
          assert groupStart == before + (divider + header);
          var j := 0;
          while j < |subMenu|
            invariant 0 <= j <= |subMenu|
            invariant items == groupStart + ChildItems(subMenu[..j], st)
          {
            ChildItemsSnoc(subMenu, j, st);
            SeqAssoc(groupStart, ChildItems(subMenu[..j], st), [EntryItem(subMenu[j], st)]);
            items := items + [MenuItem(subMenu[j], itemTextColor, itemBackground)];
            j := j + 1;
          }
          assert subMenu[..j] == subMenu;
          assert items == (before + (divider + header)) + ChildItems(subMenu, st);
          SeqAssoc(before, divider + header, ChildItems(subMenu, st));
          assert EntryItems(item, i, st) == (divider + header) + ChildItems(subMenu, st);
        } else {
          items := items + [MenuItem(item.entry, itemTextColor, itemBackground)];
        }
        i := i + 1;
      }
    }

    /** The setup shared by both create paths. */
    method SetupView(inflate: int -> seq<TopEntry>) returns (sheet: Sheet)
      ensures sheet == BuildSheet(Snapshot(), inflate(menuRes))
    {
      var items := AddMenuItems(inflate);
      var layout := if mode == MODE_GRID then GridLayout else ListLayout;
      var background := NoBackground;
      if backgroundDrawable != 0 {
        background := DrawableBackground(backgroundDrawable);
      } else {
        if backgroundColor != 0 {
          background := ColorBackground(backgroundColor);
        }
      }
      var manager: Option<LayoutManager> := None;
      var adapter := NoAdapter;
      if mode == MODE_LIST {
        manager := Some(LinearManager);
        adapter := Attached(Adapter(items, mode, listener, None));
      }
      if mode == MODE_GRID {
        manager := Some(GridManager(GridSizing.COLUMNS, 1));
        adapter := AfterLayout(items);
      }
      sheet := Sheet(layout, background, true, manager, adapter, true);
    }

    /** The inline sheet; throws when no coordinator layout was given. */
    method CreateView(inflate: int -> seq<TopEntry>) returns (r: Result<InlineSheet, Failure>)
      ensures r == ViewFor(Snapshot(), inflate(menuRes))
    {
      if coordinator.None? {
        return Err(IllegalState);
      }
      var sheet := SetupView(inflate);
      r := Ok(InlineSheet(coordinator.value, sheet));
    }

    /** The dialog, with the theme when one was given. */
    method CreateDialog(inflate: int -> seq<TopEntry>) returns (d: Dialog)
      ensures d == DialogFor(Snapshot(), inflate(menuRes))
    {
      var dialogTheme := if theme == 0 then DefaultTheme else Themed(theme);
      var sheet := SetupView(inflate);
      d := Dialog(dialogTheme, sheet.(shadowVisible := false));
    }
  }

  lemma SeqAssoc<T>(a: seq<T>, b: seq<T>, c: seq<T>)
    ensures (a + b) + c == a + (b + c)
  {
  }

  // Properties of what the create paths build

  /** A background drawable wins; the background colour is used only when there is no drawable
      and the colour is set; with neither, no background is set. */
  lemma BackgroundPrecedence(c: Config, menu: seq<TopEntry>)
    ensures c.backgroundDrawable != 0 ==> BuildSheet(c, menu).background == DrawableBackground(c.backgroundDrawable)
    ensures BuildSheet(c, menu).background.ColorBackground? <==> c.backgroundDrawable == 0 && c.backgroundColor != 0
    ensures BuildSheet(c, menu).background.ColorBackground? ==> BuildSheet(c, menu).background.color == c.backgroundColor
    ensures BuildSheet(c, menu).background == NoBackground <==> c.backgroundDrawable == 0 && c.backgroundColor == 0
  {
  }

  /** In either valid mode the sheet gets a layout manager and an adapter over the flat menu:
      grid mode the grid layout, three columns of span 1 and an adapter attached after layout;
      list mode the list layout, a linear manager and an adapter attached at once. */
  lemma LayoutByMode(c: Config, menu: seq<TopEntry>)
    requires ValidMode(c.mode)
    ensures var s := BuildSheet(c, menu);
            s.manager.Some? && s.adapter != NoAdapter && s.fixedSize && s.shadowVisible
    ensures c.mode == MODE_GRID ==>
            var s := BuildSheet(c, menu);
            s.layout == GridLayout && s.manager == Some(GridManager(3, 1)) && s.adapter == AfterLayout(Flatten(menu, StyleOf(c)))
    ensures c.mode != MODE_GRID ==>
            var s := BuildSheet(c, menu);
            s.layout == ListLayout && s.manager == Some(LinearManager)
            && s.adapter == Attached(Adapter(Flatten(menu, StyleOf(c)), MODE_LIST, c.listener, None))
  {
  }

  /** The posted grid callback attaches an adapter over the same items, built with the builder's
      configuration at the time it runs and the grid item width; a list sheet has nothing pending. */
  lemma GridAdapterAfterLayout(c: Config, later: Config, menu: seq<TopEntry>, measuredWidth: int, densityDpi: int)
    requires ValidMode(c.mode)
    ensures c.mode == MODE_GRID ==>
            LaidOut(later, BuildSheet(c, menu), measuredWidth, densityDpi)
            == BuildSheet(c, menu).(adapter := Attached(Adapter(Flatten(menu, StyleOf(c)), later.mode, later.listener,
                                                                Some(GridSizing.GridItemWidth(measuredWidth, densityDpi)))))
    ensures c.mode == MODE_LIST ==> LaidOut(later, BuildSheet(c, menu), measuredWidth, densityDpi) == BuildSheet(c, menu)
  {
  }

  /** Creating the inline view fails, with an illegal-state failure, exactly when no coordinator
      layout is known; otherwise the common sheet is placed in that layout. */
  lemma ViewNeedsCoordinator(c: Config, menu: seq<TopEntry>)
    ensures ViewFor(c, menu).Err? <==> c.coordinator.None?
    ensures ViewFor(c, menu).Err? ==> ViewFor(c, menu).error == IllegalState
    ensures ViewFor(c, menu).Ok? ==> ViewFor(c, menu).value == InlineSheet(c.coordinator.value, BuildSheet(c, menu))
  {
  }

  /** The dialog is themed exactly when the theme is non-zero, then with that theme; its content
      is the common sheet with the shadow hidden. */
  lemma DialogTheming(c: Config, menu: seq<TopEntry>)
    ensures DialogFor(c, menu).theme.Themed? <==> c.theme != 0
    ensures DialogFor(c, menu).theme.Themed? ==> DialogFor(c, menu).theme.theme == c.theme
    ensures !DialogFor(c, menu).content.shadowVisible
    ensures DialogFor(c, menu).content == BuildSheet(c, menu).(shadowVisible := false)
  {
  }

  /** Builders made without a coordinator layout can never create the inline view; the builder
      made with one has no theme, so its dialog uses the default theme; every builder starts in
      list mode. */
  lemma ConstructorConsequences(theme: int, coordinatorLayout: Option<LayoutId>, menu: seq<TopEntry>)
    ensures ViewFor(Initial(theme, None), menu) == Err(IllegalState)
    ensures DialogFor(Initial(0, coordinatorLayout), menu).theme == DefaultTheme
    ensures Initial(theme, coordinatorLayout).mode == MODE_LIST
  {
  }

  /** A builder made with a theme cannot create the inline view, even after its mode and menu are set. */
  method ThemedBuilderHasNoView(dialogTheme: int, menuRes: int, inflate: int -> seq<TopEntry>) returns (r: Result<InlineSheet, Failure>)
    ensures r == Err(IllegalState)
  {
    var b := new BottomSheetBuilder.WithTheme(dialogTheme);
    var _ := b.SetMode(MODE_GRID);
    var _ := b.SetMenu(menuRes);
    r := b.CreateView(inflate);
  }
}
