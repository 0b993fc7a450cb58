# BottomSheetBuilder in Dafny

A model of `BottomSheetBuilder`, the class of the BottomSheetBuilder Android library that
builds a bottom sheet (a panel that slides up from the bottom of the screen) from a menu
resource. It covers four parts:

- **menu flattening** (`Menu`). A menu has at most two levels: top-level entries, some of
  which own a submenu. It becomes a flat list of dividers, headers and menu items.
- **the builder** (`Builder`). A class with the source's fields, chained setters, three
  constructors, the mode check, and the two create paths. The create paths return values
  describing the sheet or dialog that would be built.
- **grid item width** (`GridSizing`). The width the grid-mode adapter is given after layout.
  Java's truncating integer division and `(int)` cast are written out.
- **saved state** (`SavedState`). How the behaviour state is saved into the host's bundle and
  restored from it, as operations on a map.

`Wrappers` holds `Option`, which stands for a Java reference that may be null, and `Result`,
which stands for a call that may throw.

Modelling choices:

- The menu is given to the builder as a function `inflate` from menu resource id to the
  inflated menu. The builder applies it to its `menuRes` field.
- A grouped entry gets a divider when it is not the first entry. This holds even when the entry
  before it is ungrouped, so the divider count depends only on the index.
- If the first entry is an untitled group with an empty submenu, it contributes nothing. A
  grouped second entry's divider then opens the list (`Menu.LeadingDividerAfterEmptyGroup`).
  So "no divider at the top" holds only when the first entry contributes an item
  (`Menu.NoLeadingDivider`).
- The grid margin is `24 * (densityDpi / 160)` in integer arithmetic. The item width is
  therefore a step function of density, not a strictly decreasing one: 160 and 240 dpi give
  the same width (`GridSizing.GridMarginSteps`). Densities below 160 dpi get no margin at all.
- `Bundle.getInt` reads a missing key as 0. The behaviour's expanded state is the toolkit's
  constant 3. So a bundle without the key restores nothing.
- The grid callback runs after layout and reads the builder's `mMode` and
  `mItemClickListener` at that later time. `Builder.LaidOut` therefore takes the configuration
  current when it runs as a separate argument.

## Model

| member | source | states |
|---|---|---|
| `Menu.EntryItems` | library/src/main/java/com/github/rubensousa/bottomsheetbuilder/BottomSheetBuilder.java:235-250 | the items of the top-level entry at index i: for an ungrouped entry one menu item for itself; for a grouped one a divider unless i = 0, then a header when titled, then one menu item per child. Its properties are the placement lemmas below |
| `Menu.FlattenPrefix` | library/src/main/java/com/github/rubensousa/bottomsheetbuilder/BottomSheetBuilder.java:232-251 | the list after the loop has processed the first n entries: the list for n - 1 entries followed by entry n - 1's items |
| `Menu.Flatten` | library/src/main/java/com/github/rubensousa/bottomsheetbuilder/BottomSheetBuilder.java:226-254 | the list the builder returns for the whole menu; the length, order, placement and style lemmas below are about it |
| `Menu.ChildItems` | library/src/main/java/com/github/rubensousa/bottomsheetbuilder/BottomSheetBuilder.java:243-247 | one menu item per submenu entry, as many items as entries, each carrying its entry and the item text colour and background, in submenu order |
| `Menu.FlattenPrefixLength` | library/src/main/java/com/github/rubensousa/bottomsheetbuilder/BottomSheetBuilder.java:232-251 | the list built from the first n entries is as long as the sum of their sizes. A size is 1 for an ungrouped entry, otherwise [index ≠ 0] + [titled] + number of children |
| `Menu.FlattenLength` | library/src/main/java/com/github/rubensousa/bottomsheetbuilder/BottomSheetBuilder.java:232-251 | the whole flat list is as long as the sum of the entry sizes |
| `Menu.FlattenPrefixGrows` | library/src/main/java/com/github/rubensousa/bottomsheetbuilder/BottomSheetBuilder.java:232-251 | processing more entries only appends: the list after n entries is a prefix of the list after m ≥ n entries |
| `Menu.EntryBlock` | library/src/main/java/com/github/rubensousa/bottomsheetbuilder/BottomSheetBuilder.java:232-251 | the items of entry i form one contiguous block of the list, from the sum of the earlier sizes to that sum plus its own size |
| `Menu.DividerPlacement` | library/src/main/java/com/github/rubensousa/bottomsheetbuilder/BottomSheetBuilder.java:235-238 | an entry's block opens with a divider if and only if the entry is grouped and not at index 0; that divider carries the divider background |
| `Menu.HeaderPlacement` | library/src/main/java/com/github/rubensousa/bottomsheetbuilder/BottomSheetBuilder.java:239-242 | right after its divider (if any), a grouped entry has a header with its title and the title text colour exactly when its title is non-null and non-empty; a header there implies a titled group |
| `Menu.ChildPlacement` | library/src/main/java/com/github/rubensousa/bottomsheetbuilder/BottomSheetBuilder.java:243-247 | after divider and header, the j-th child of a grouped entry is a menu item for that child with the item style, and the children close the block |
| `Menu.UngroupedPlacement` | library/src/main/java/com/github/rubensousa/bottomsheetbuilder/BottomSheetBuilder.java:248-250 | an ungrouped entry contributes exactly one menu item for itself, with the same item text colour and background as submenu children |
| `Menu.FlatMenu` | library/src/main/java/com/github/rubensousa/bottomsheetbuilder/BottomSheetBuilder.java:232-251 | with no submenus, the first n entries flatten to n menu items, item k being entry k |
| `Menu.UngroupedMenu` | library/src/main/java/com/github/rubensousa/bottomsheetbuilder/BottomSheetBuilder.java:232-251 | a menu of N entries without submenus flattens to N menu items in menu order, with no header and no divider |
| `Menu.FlattenPrefixStyled` | library/src/main/java/com/github/rubensousa/bottomsheetbuilder/BottomSheetBuilder.java:235-250 | every divider carries the divider background, every header the title colour, every menu item the item text colour and item background |
| `Menu.FlattenPrefixOrder` | library/src/main/java/com/github/rubensousa/bottomsheetbuilder/BottomSheetBuilder.java:232-251 | the menu items of the first n entries' list carry exactly those entries' leaves in menu order, and its headers exactly the titles of the titled groups in order |
| `Menu.FlattenOrder` | library/src/main/java/com/github/rubensousa/bottomsheetbuilder/BottomSheetBuilder.java:232-251 | the same for the whole menu: order is preserved; no entry is lost, duplicated or reordered |
| `Menu.NoLeadingDivider` | library/src/main/java/com/github/rubensousa/bottomsheetbuilder/BottomSheetBuilder.java:235-238 | when the first entry contributes at least one item, the list does not open with a divider |
| `Menu.LeadingDividerAfterEmptyGroup` | library/src/main/java/com/github/rubensousa/bottomsheetbuilder/BottomSheetBuilder.java:235-247 | an untitled, empty first group followed by a titled group with one child gives [divider, header, item] |
| `Menu.TitledGroupThenEntry` | library/src/main/java/com/github/rubensousa/bottomsheetbuilder/BottomSheetBuilder.java:232-251 | a first group titled "T" with three children, then an ungrouped entry, gives a header and four menu items, with no divider |
| `Menu.UntitledSecondGroup` | library/src/main/java/com/github/rubensousa/bottomsheetbuilder/BottomSheetBuilder.java:232-251 | an ungrouped entry, then a group with an empty title and two children, gives an item, a divider and two items, with no header |
| `GridSizing.GridMargin` | library/src/main/java/com/github/rubensousa/bottomsheetbuilder/BottomSheetBuilder.java:216 | the margin on each side: 24 times the density divided by 160, the division truncating |
| `GridSizing.GridItemWidth` | library/src/main/java/com/github/rubensousa/bottomsheetbuilder/BottomSheetBuilder.java:217 | the measured width less two margins, divided by 3 and truncated toward zero |
| `GridSizing.TruncDiv` | library/src/main/java/com/github/rubensousa/bottomsheetbuilder/BottomSheetBuilder.java:216-217 | division that rounds toward zero: the remainder lies strictly within one divisor of 0 and has the sign of the dividend |
| `GridSizing.TruncDivMonotone` | library/src/main/java/com/github/rubensousa/bottomsheetbuilder/BottomSheetBuilder.java:216-217 | truncating division by a positive divisor is monotone in the dividend |
| `GridSizing.GridMarginMonotone` | library/src/main/java/com/github/rubensousa/bottomsheetbuilder/BottomSheetBuilder.java:216 | the margin never decreases as the density grows |
| `GridSizing.GridItemWidthMonotone` | library/src/main/java/com/github/rubensousa/bottomsheetbuilder/BottomSheetBuilder.java:215-217 | for a fixed measured width, the item width never increases as the density grows |
| `GridSizing.GridMarginSteps` | library/src/main/java/com/github/rubensousa/bottomsheetbuilder/BottomSheetBuilder.java:216-217 | the margin is 0 below 160 dpi and 24 from 160 to 319 dpi, so 720 px at 160 and at 240 dpi both give items 224 px wide |
| `GridSizing.NarrowView` | library/src/main/java/com/github/rubensousa/bottomsheetbuilder/BottomSheetBuilder.java:217 | a view narrower than its margins gets a negative width, rounded toward zero (-47/3 gives -15) |
| `SavedState.SaveState` | library/src/main/java/com/github/rubensousa/bottomsheetbuilder/BottomSheetBuilder.java:256-260 | an absent bundle stays absent; a present one gains the key `saved_behavior_state`, holding the behaviour state, and keeps every other key and value |
| `SavedState.RestoreCall` | library/src/main/java/com/github/rubensousa/bottomsheetbuilder/BottomSheetBuilder.java:262-275 | the behaviour's state is set if and only if the bundle is present and its saved state equals the expanded state, and then it is set to the expanded state |
| `SavedState.RestoreState` | library/src/main/java/com/github/rubensousa/bottomsheetbuilder/BottomSheetBuilder.java:262-275 | after restoring, the behaviour is either in its previous state or expanded |
| `SavedState.SaveThenRestore` | library/src/main/java/com/github/rubensousa/bottomsheetbuilder/BottomSheetBuilder.java:256-275 | restoring a bundle saved with state s re-expands the sheet when s is expanded, and otherwise leaves the current state unchanged |
| `SavedState.RestoreWithoutKey` | library/src/main/java/com/github/rubensousa/bottomsheetbuilder/BottomSheetBuilder.java:268-271 | a present bundle without the key restores nothing |
| `Builder.Initial` | library/src/main/java/com/github/rubensousa/bottomsheetbuilder/BottomSheetBuilder.java:45-71 | the field values a constructor leaves: every resource id 0, no listener, list mode, with the given theme and coordinator layout |
| `Builder.BuildSheet` | library/src/main/java/com/github/rubensousa/bottomsheetbuilder/BottomSheetBuilder.java:172-224 | the sheet the common setup builds: the flat items, the layout and manager chosen by mode, the background chosen by drawable then colour, a fixed size and a visible shadow |
| `Builder.ViewFor` | library/src/main/java/com/github/rubensousa/bottomsheetbuilder/BottomSheetBuilder.java:140-158 | the result of the inline create path: an illegal-state failure without a coordinator layout, otherwise the common sheet placed in it |
| `Builder.DialogFor` | library/src/main/java/com/github/rubensousa/bottomsheetbuilder/BottomSheetBuilder.java:160-169 | the dialog of the create path: the theme when non-zero, otherwise the default, and the common sheet with its shadow hidden |
| `Builder.LaidOut` | library/src/main/java/com/github/rubensousa/bottomsheetbuilder/BottomSheetBuilder.java:209-220 | what the grid callback does after layout: attach an adapter over the pending items with the mode and listener current at that time and the grid item width; a sheet with nothing pending is unchanged |
| `Builder.BottomSheetBuilder.WithCoordinator` | library/src/main/java/com/github/rubensousa/bottomsheetbuilder/BottomSheetBuilder.java:74-77 | the builder keeps the given (possibly null) coordinator layout and has theme 0, every resource unset, no listener and list mode |
| `Builder.BottomSheetBuilder.FromContext` | library/src/main/java/com/github/rubensousa/bottomsheetbuilder/BottomSheetBuilder.java:79-81 | the same as the themed constructor with theme 0: no coordinator layout, list mode |
| `Builder.BottomSheetBuilder.WithTheme` | library/src/main/java/com/github/rubensousa/bottomsheetbuilder/BottomSheetBuilder.java:83-86 | the builder keeps the theme, has no coordinator layout, every other field is at its default and the mode is list mode |
| `Builder.BottomSheetBuilder.SetMode` | library/src/main/java/com/github/rubensousa/bottomsheetbuilder/BottomSheetBuilder.java:88-97 | for 0 (list) or 1 (grid), the mode is set, nothing else changes and the same builder is returned. Any other value fails with an illegal-argument failure and changes nothing. The mode invariant is kept |
| `Builder.BottomSheetBuilder.SetItemClickListener` | library/src/main/java/com/github/rubensousa/bottomsheetbuilder/BottomSheetBuilder.java:99-102 | sets only the listener and returns the same builder |
| `Builder.BottomSheetBuilder.SetMenu` | library/src/main/java/com/github/rubensousa/bottomsheetbuilder/BottomSheetBuilder.java:104-107 | sets only the menu resource and returns the same builder |
| `Builder.BottomSheetBuilder.SetItemTextColor` | library/src/main/java/com/github/rubensousa/bottomsheetbuilder/BottomSheetBuilder.java:109-112 | sets only the item text colour and returns the same builder |
| `Builder.BottomSheetBuilder.SetTitleTextColor` | library/src/main/java/com/github/rubensousa/bottomsheetbuilder/BottomSheetBuilder.java:114-117 | sets only the title text colour and returns the same builder |
| `Builder.BottomSheetBuilder.SetBackground` | library/src/main/java/com/github/rubensousa/bottomsheetbuilder/BottomSheetBuilder.java:119-122 | sets only the background drawable and returns the same builder |
| `Builder.BottomSheetBuilder.SetBackgroundColor` | library/src/main/java/com/github/rubensousa/bottomsheetbuilder/BottomSheetBuilder.java:124-127 | sets only the background colour and returns the same builder |
| `Builder.BottomSheetBuilder.SetDividerBackground` | library/src/main/java/com/github/rubensousa/bottomsheetbuilder/BottomSheetBuilder.java:129-132 | sets only the divider background and returns the same builder |
| `Builder.BottomSheetBuilder.SetItemBackground` | library/src/main/java/com/github/rubensousa/bottomsheetbuilder/BottomSheetBuilder.java:134-137 | sets only the item background and returns the same builder |
| `Builder.BottomSheetBuilder.AddMenuItems` | library/src/main/java/com/github/rubensousa/bottomsheetbuilder/BottomSheetBuilder.java:226-254 | the nested loops build exactly the flat list of the inflated menu under the builder's style tokens (the `Menu` lemmas give its length, order and placement) |
| `Builder.BottomSheetBuilder.SetupView` | library/src/main/java/com/github/rubensousa/bottomsheetbuilder/BottomSheetBuilder.java:172-224 | the common setup builds the sheet of the current configuration and inflated menu; `Builder.BackgroundPrecedence` and `Builder.LayoutByMode` give its properties |
| `Builder.BottomSheetBuilder.CreateView` | library/src/main/java/com/github/rubensousa/bottomsheetbuilder/BottomSheetBuilder.java:140-158 | without a coordinator layout the call fails with an illegal-state failure; otherwise it returns the common sheet placed in that layout (`Builder.ViewNeedsCoordinator`) |
| `Builder.BottomSheetBuilder.CreateDialog` | library/src/main/java/com/github/rubensousa/bottomsheetbuilder/BottomSheetBuilder.java:160-169 | the dialog of the current configuration: themed only with a non-zero theme, its shadow hidden (`Builder.DialogTheming`) |
| `Builder.BackgroundPrecedence` | library/src/main/java/com/github/rubensousa/bottomsheetbuilder/BottomSheetBuilder.java:185-191 | a non-zero background drawable wins; the colour is applied exactly when the drawable is 0 and the colour is non-zero; with both 0 no background is set |
| `Builder.LayoutByMode` | library/src/main/java/com/github/rubensousa/bottomsheetbuilder/BottomSheetBuilder.java:177-208 | in a valid mode the sheet always gets a layout manager and an adapter, and has a fixed size. Grid mode gives the grid layout, 3 columns with span size 1 for every position, and an adapter attached after layout. List mode gives the list layout, a linear manager, and an adapter over the flat items attached at once |
| `Builder.GridAdapterAfterLayout` | library/src/main/java/com/github/rubensousa/bottomsheetbuilder/BottomSheetBuilder.java:209-220 | after layout, a grid sheet's callback attaches an adapter over the same flat items. The adapter uses the mode and listener current when the callback runs, and the grid item width. A list sheet is unchanged |
| `Builder.ViewNeedsCoordinator` | library/src/main/java/com/github/rubensousa/bottomsheetbuilder/BottomSheetBuilder.java:142-157 | creating the inline view fails if and only if there is no coordinator layout, and then with an illegal-state failure; otherwise the sheet is placed in that layout |
| `Builder.DialogTheming` | library/src/main/java/com/github/rubensousa/bottomsheetbuilder/BottomSheetBuilder.java:160-168 | the dialog is themed if and only if the theme is non-zero, with that theme; its content is the common sheet with the shadow hidden |
| `Builder.ConstructorConsequences` | library/src/main/java/com/github/rubensousa/bottomsheetbuilder/BottomSheetBuilder.java:71-86 | builders made without a coordinator layout can never create the inline view; the coordinator-layout builder's dialog uses the default theme; every builder starts in list mode |
| `Builder.ThemedBuilderHasNoView` | library/src/main/java/com/github/rubensousa/bottomsheetbuilder/BottomSheetBuilder.java:142-145 | a builder made with a theme fails with illegal state on `CreateView`, even after its mode and menu are set |

## Left out

- Menu XML inflation (`SupportMenuInflater`, `MenuBuilder`). The inflated menu is an input, supplied by the `inflate` parameter.
- `Context`. It is only passed through to toolkit calls, so it is not a field of the model.
- Android views. Whatever is inflated, found by id, added to the coordinator layout or set as dialog content becomes a `Sheet`, `InlineSheet` or `Dialog` value. The coordinator layout's child list, the redraw request and the layout parameters are not modelled.
- `ContextCompat.getColor`. It resolves a colour resource to a colour value; `ColorBackground` keeps the resource id.
- Deferred execution. The model does not capture when the grid callback or the 300 ms restore callback runs, whether it runs at all, or whether the sheet is still alive then. Only what each callback does is modelled (`Builder.LaidOut`, `SavedState.RestoreCall`).
- GridSizing.GridItemWidth models the float division and the `(int)` cast as exact arithmetic truncated toward zero. This rests on widths and margins below 2^24, where the floats are exact. Larger values, where the floats would round, are not modelled.
- `BottomSheetItemAdapter`, the item classes and click dispatch are not part of this model. The adapter appears only as the items, mode, listener and width it is given.
- Titles are `string`s. A styled title (a `CharSequence` that is not a `String`) never equals "" in Java, so an empty styled title would still produce a header. The model cannot represent that case.
- A null behaviour. If `saveState` gets a present bundle and a null behaviour, it throws a null-pointer exception (line 258). The restore callback does the same when the saved state is expanded (line 270). `SavedState.SaveState`, `SavedState.RestoreCall` and `SavedState.RestoreState` take the behaviour's state as a plain int, so a null behaviour cannot be expressed.
- A menu resource that does not exist. The `inflate` parameter is total, so `CreateView` and `CreateDialog` on a builder whose menu was never set (menu resource 0) return a sheet or a dialog. The source inflates resource 0 at line 230, and the toolkit's resource lookup throws there instead.
- The behaviour's own reaction to a set state (animation, rejection) and the bundle's other value types are toolkit behaviour.
- The sample application's activity is demo wiring with no logic of its own.
