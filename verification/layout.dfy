/**
 * The inventory windows of ResourceMonitorGUI: their sizes, the layout picked
 * for a size, the border, the minimized and plugin-list windows, and the
 * decision onInventoryClick takes for a click.
 *
 * A slot holds an abstract item; its name, lore and colours are presentation
 * and are not modelled. What a click does depends only on the item's
 * material, so every item has one.
 */
module Layout {
  import opened Wrappers
  import opened Widgets

  /** The materials the windows use. */
  datatype Material =
    | GoldIngot | OrangeWool | GrayWool | LimeWool | RedWool | Emerald | Book | Arrow | Barrier
    | BlueGlassPane | RedstoneTorch | Diamond | Clock | Compass | Redstone | GoldNugget | PlayerHead

  /** The items the windows place. */
  datatype Item =
    | BorderPane
    | MinimizeButton | ResizeButton | OverlayButton | AutoRefreshButton(on: bool) | CloseButton
    | CpuTile | MemoryTile | ServerTile | PerformanceTile | PluginsTile | SystemTile | RefreshButton
    | RestoreButton | QuickCpu | QuickMemory | QuickPlayers | MiniCloseButton
    | PluginTile(name: string, enabled: bool, description: Option<string>)
    | BackButton

  function MaterialOf(item: Item): Material
  {
    match item
    case BorderPane => BlueGlassPane
    case MinimizeButton => GoldIngot
    case ResizeButton => OrangeWool
    case OverlayButton => GrayWool
    case AutoRefreshButton(on) => if on then LimeWool else RedWool
    case CloseButton => RedWool
    case CpuTile => RedstoneTorch
    case MemoryTile => GoldIngot
    case ServerTile => Diamond
    case PerformanceTile => Clock
    case PluginsTile => Book
    case SystemTile => Compass
    case RefreshButton => Emerald
    case RestoreButton => LimeWool
    case QuickCpu => Redstone
    case QuickMemory => GoldNugget
    case QuickPlayers => PlayerHead
    case MiniCloseButton => Barrier
    case PluginTile(_, enabled, _) => if enabled then LimeWool else RedWool
    case BackButton => Arrow
  }

  datatype Slot = Empty | Filled(item: Item)

  /** Which window a player has open, as onInventoryClick tells it from the title. */
  datatype View = MainView | MinimizedView | PluginDetailsView | ForeignView

  /** An opened window: its kind and its slots. */
  datatype Window = Window(view: View, slots: seq<Slot>)

  // ---------------------------------------------------------------------
  // Window sizes (cycleWindowSize) and the layout for a size (openGUI)
  // ---------------------------------------------------------------------

  const DefaultSize: int := 54

  /** The four sizes the resize button cycles through. */
  predicate ValidSize(n: int)
  {
    n == 27 || n == 36 || n == 45 || n == 54
  }

  /** cycleWindowSize: 27 -> 36 -> 45 -> 54 -> 27, and any other size -> 54. */
  function NextWindowSize(n: int): (m: int)
    ensures ValidSize(m)
    ensures !ValidSize(n) ==> m == DefaultSize
    ensures ValidSize(n) ==> m != n && (m > n || (n == 54 && m == 27))
  {
    match n
    case 27 => 36
    case 36 => 45
    case 45 => 54
    case 54 => 27
    case _ => 54
  }

  /** Resizing has period four on the valid sizes, and visits each of them once. */
  lemma CycleHasPeriodFour(n: int)
    requires ValidSize(n)
    ensures NextWindowSize(NextWindowSize(NextWindowSize(NextWindowSize(n)))) == n
    ensures NextWindowSize(NextWindowSize(n)) != n && NextWindowSize(NextWindowSize(NextWindowSize(n))) != n
    ensures {n, NextWindowSize(n), NextWindowSize(NextWindowSize(n)), NextWindowSize(NextWindowSize(NextWindowSize(n)))}
         == {27, 36, 45, 54}
  {
  }

  /** The layouts openGUI and updateGUIItems choose from. */
  datatype LayoutKind = Full | Medium | Small | Minimal

  /** The thresholds in openGUI: 54 and up full, 36 and up medium, 27 and up small, else minimal. */
  function LayoutFor(size: int): (k: LayoutKind)
    ensures k == Full <==> size >= 54
    ensures k == Medium <==> 36 <= size < 54
    ensures k == Small <==> 27 <= size < 36
    ensures k == Minimal <==> size < 27
  {
    if size >= 54 then Full else if size >= 36 then Medium else if size >= 27 then Small else Minimal
  }

  /** Sizes reached by resizing never pick the minimal layout, and 45 shares the medium one with 36. */
  lemma ValidSizeLayouts(size: int)
    requires ValidSize(size)
    ensures LayoutFor(size) != Minimal
    ensures LayoutFor(size) == Medium <==> size == 36 || size == 45
  {
  }

  /** The tile createFullLayout, createMediumLayout, createSmallLayout or createMinimalLayout puts at a slot. */
  function LayoutItem(k: LayoutKind, i: int): (t: Option<Item>)
    ensures t.Some? ==> 9 <= i && i % 9 != 0 && i % 9 != 8
    ensures t.Some? ==> t.value in {CpuTile, MemoryTile, ServerTile, PerformanceTile, PluginsTile, SystemTile, RefreshButton}
    ensures t == Some(CpuTile) <==> i == (if k == Full then 11 else 10)
  {
    match k
    case Full =>
      if i == 11 then Some(CpuTile) else if i == 13 then Some(MemoryTile)
      else if i == 15 then Some(ServerTile) else if i == 29 then Some(PerformanceTile)
      else if i == 31 then Some(PluginsTile) else if i == 33 then Some(SystemTile)
      else if i == 49 then Some(RefreshButton) else None
    case Medium =>
      if i == 10 then Some(CpuTile) else if i == 12 then Some(MemoryTile)
      else if i == 14 then Some(ServerTile) else if i == 19 then Some(PluginsTile)
      else if i == 21 then Some(PerformanceTile) else if i == 23 then Some(SystemTile)
      else if i == 31 then Some(RefreshButton) else None
    case Small =>
      if i == 10 then Some(CpuTile) else if i == 12 then Some(MemoryTile)
      else if i == 14 then Some(PluginsTile) else if i == 22 then Some(RefreshButton) else None
    case Minimal =>
      if i == 10 then Some(CpuTile) else if i == 12 then Some(MemoryTile)
      else if i == 16 then Some(RefreshButton) else None
  }

  /** The highest slot a layout writes to. */
  function LastTileSlot(k: LayoutKind): (n: nat)
    ensures forall i :: LayoutItem(k, i).Some? ==> i <= n
  {
    match k
    case Full => 49
    case Medium => 31
    case Small => 22
    case Minimal => 16
  }

  /** The button createWindowControls puts at a slot of the top row. */
  function ControlItem(i: int, autoRefreshOn: bool): Option<Item>
  {
    if i == 1 then Some(MinimizeButton) else if i == 2 then Some(ResizeButton)
    else if i == 4 then Some(OverlayButton) else if i == 6 then Some(AutoRefreshButton(autoRefreshOn))
    else if i == 7 then Some(CloseButton) else None
  }

  /** Every tile of a layout chosen for a valid size lies inside the window, below the controls. */
  lemma LayoutFitsWindow(size: int, i: int)
    requires ValidSize(size) && LayoutItem(LayoutFor(size), i).Some?
    ensures 9 <= i < size
    ensures ControlItem(i, false).None? && ControlItem(i, true).None?
  {
  }

  // ---------------------------------------------------------------------
  // createBorder
  // ---------------------------------------------------------------------

  /** A slot of the first row, the last row, or the first or last column of a window of `size` slots. */
  predicate OnPerimeter(i: int, size: int)
    requires size % 9 == 0 && size >= 9
  {
    i / 9 == 0 || i / 9 == size / 9 - 1 || i % 9 == 0 || i % 9 == 8
  }

  /** What createBorder does to one slot it visits: an empty slot gets a pane, a filled one is kept. */
  function Fill(s: Slot): Slot
  {
    if s == Empty then Filled(BorderPane) else s
  }

  /** The slots after createBorder: perimeter slots filled if they were empty, all others as they were. */
  function Bordered(s: seq<Slot>, size: int): (r: seq<Slot>)
    requires |s| == size && size % 9 == 0 && size >= 9
    ensures |r| == size
  {
    seq(size, i requires 0 <= i < size => if OnPerimeter(i, size) then Fill(s[i]) else s[i])
  }

  /**
   * The border never replaces an item, never touches an inner slot, leaves
   * no perimeter slot empty, and drawing it twice is drawing it once.
   */
  lemma BorderedProperties(s: seq<Slot>, size: int)
    requires |s| == size && size % 9 == 0 && size >= 9
    ensures forall i :: 0 <= i < size && s[i] != Empty ==> Bordered(s, size)[i] == s[i]
    ensures forall i :: 0 <= i < size && !OnPerimeter(i, size) ==> Bordered(s, size)[i] == s[i]
    ensures forall i :: 0 <= i < size && OnPerimeter(i, size) ==> Bordered(s, size)[i] != Empty
    ensures Bordered(Bordered(s, size), size) == Bordered(s, size)
  {
  }

  /** createBorder: the three loops over the top row, the bottom row and the two side columns. */
  method CreateBorder(inv: array<Slot>, size: int)
    requires inv.Length == size && size % 9 == 0 && size >= 9
    modifies inv
    ensures inv[..] == Bordered(old(inv[..]), size)
  {
    var rows := size / 9;
    // Top row.
    for i := 0 to 9
      invariant forall j :: 0 <= j < size ==> inv[j] == if j < i then Fill(old(inv[j])) else old(inv[j])
    {
      if inv[i] == Empty {
        inv[i] := Filled(BorderPane);
      }
    }
    // Bottom row.
    if rows > 1 {
      for i := (rows - 1) * 9 to size
        invariant forall j :: 0 <= j < size ==>
          inv[j] == if j < 9 || (rows - 1) * 9 <= j < i then Fill(old(inv[j])) else old(inv[j])
      {
        if inv[i] == Empty {
          inv[i] := Filled(BorderPane);
        }
      }
    }
    // Side columns of the middle rows.
    var i := 1;
    while i < rows - 1
      invariant 1 <= i <= if rows > 1 then rows - 1 else 1
      invariant forall j :: 0 <= j < size ==>
        inv[j] == if j / 9 == 0 || j / 9 == rows - 1 || ((j % 9 == 0 || j % 9 == 8) && j / 9 < i)
                  then Fill(old(inv[j])) else old(inv[j])
    {
      if inv[i * 9] == Empty {
        inv[i * 9] := Filled(BorderPane);
      }
      if inv[i * 9 + 8] == Empty {
        inv[i * 9 + 8] := Filled(BorderPane);
      }
      i := i + 1;
    }
  }

  // ---------------------------------------------------------------------
  // openGUI: the main window
  // ---------------------------------------------------------------------

  /** The slot of the main window: layout tile, else control button, else border pane, else empty. */
  function MainSlot(size: int, autoRefreshOn: bool, i: int): Slot
    requires ValidSize(size)
  {
    match LayoutItem(LayoutFor(size), i)
    case Some(tile) => Filled(tile)
    case None =>
      match ControlItem(i, autoRefreshOn)
      case Some(button) => Filled(button)
      case None => if OnPerimeter(i, size) then Filled(BorderPane) else Empty
  }

  function MainSlots(size: int, autoRefreshOn: bool): (r: seq<Slot>)
    requires ValidSize(size)
    ensures |r| == size
  {
    seq(size, i => MainSlot(size, autoRefreshOn, i))
  }

  /** createWindowControls: the five buttons of the top row. */
  method PlaceWindowControls(inv: array<Slot>, autoRefreshOn: bool)
    requires inv.Length >= 9
    modifies inv
    ensures forall j :: 0 <= j < inv.Length ==>
      inv[j] == match ControlItem(j, autoRefreshOn) case Some(b) => Filled(b) case None => old(inv[j])
  {
    inv[1] := Filled(MinimizeButton);
    inv[2] := Filled(ResizeButton);
    inv[4] := Filled(OverlayButton);
    inv[6] := Filled(AutoRefreshButton(autoRefreshOn));
    inv[7] := Filled(CloseButton);
  }

  /** createFullLayout, createMediumLayout, createSmallLayout and createMinimalLayout. */
  method PlaceLayout(inv: array<Slot>, k: LayoutKind)
    requires LastTileSlot(k) < inv.Length
    modifies inv
    ensures forall j :: 0 <= j < inv.Length ==>
      inv[j] == match LayoutItem(k, j) case Some(t) => Filled(t) case None => old(inv[j])
  {
    match k
    case Full =>
      inv[11] := Filled(CpuTile);
      inv[13] := Filled(MemoryTile);
      inv[15] := Filled(ServerTile);
      inv[29] := Filled(PerformanceTile);
      inv[31] := Filled(PluginsTile);
      inv[33] := Filled(SystemTile);
      inv[49] := Filled(RefreshButton);
    case Medium =>
      inv[10] := Filled(CpuTile);
      inv[12] := Filled(MemoryTile);
      inv[14] := Filled(ServerTile);
      inv[19] := Filled(PluginsTile);
      inv[21] := Filled(PerformanceTile);
      inv[23] := Filled(SystemTile);
      inv[31] := Filled(RefreshButton);
    case Small =>
      inv[10] := Filled(CpuTile);
      inv[12] := Filled(MemoryTile);
      inv[14] := Filled(PluginsTile);
      inv[22] := Filled(RefreshButton);
    case Minimal =>
      inv[10] := Filled(CpuTile);
      inv[12] := Filled(MemoryTile);
      inv[16] := Filled(RefreshButton);
  }

  /**
   * The main branch of openGUI: a fresh window of `size` slots, the controls,
   * the border around them, then the layout for the size.
   */
  method BuildMainWindow(size: int, autoRefreshOn: bool) returns (inv: array<Slot>)
    requires ValidSize(size)
    ensures fresh(inv)
    ensures inv[..] == MainSlots(size, autoRefreshOn)
  {
    inv := new Slot[size](_ => Empty);
    PlaceWindowControls(inv, autoRefreshOn);
    ghost var controls := inv[..];
    CreateBorder(inv, size);
    ghost var bordered := inv[..];
    PlaceLayout(inv, LayoutFor(size));
    forall j | 0 <= j < size
      ensures inv[j] == MainSlot(size, autoRefreshOn, j)
    {
      assert bordered[j] == Bordered(controls, size)[j];
    }
  }

  /** Every slot of the main window is filled except the inner slots no tile uses. */
  lemma MainWindowShape(size: int, autoRefreshOn: bool, i: int)
    requires ValidSize(size) && 0 <= i < size
    ensures MainSlots(size, autoRefreshOn)[i] == Empty <==>
      !OnPerimeter(i, size) && LayoutItem(LayoutFor(size), i).None?
    ensures i == 6 ==> MainSlots(size, autoRefreshOn)[i] == Filled(AutoRefreshButton(autoRefreshOn))
  {
  }

  // ---------------------------------------------------------------------
  // openMinimizedWindow and showPluginList
  // ---------------------------------------------------------------------

  /** openMinimizedWindow: nine slots with restore, the three readings and a close button. */
  function MinimizedSlots(): (r: seq<Slot>)
    ensures |r| == 9
  {
    [Filled(RestoreButton), Empty, Filled(QuickCpu), Empty, Filled(QuickMemory),
     Empty, Filled(QuickPlayers), Empty, Filled(MiniCloseButton)]
  }

  const PluginListSize: nat := 54
  const MaxListedPlugins: nat := 45
  const BackSlot: nat := 53

  /** The entry showPluginList makes for one plugin; a long description is shortened. */
  function PluginEntry(p: PluginInfo): Item
  {
    PluginTile(p.name, p.enabled,
      match p.description
      case Some(d) => Some(ShortDescription(d))
      case None => None)
  }

  /** How many plugins the list shows: all of them, up to 45. */
  function Listed(plugins: seq<PluginInfo>): (n: nat)
    ensures n <= MaxListedPlugins && n <= |plugins|
    ensures n == |plugins| || n == MaxListedPlugins
  {
    if |plugins| < MaxListedPlugins then |plugins| else MaxListedPlugins
  }

  /** The plugin list: one entry per listed plugin from slot 0 on, the back button in the last slot. */
  function PluginListSlot(plugins: seq<PluginInfo>, i: int): Slot
  {
    if 0 <= i < Listed(plugins) then Filled(PluginEntry(plugins[i]))
    else if i == BackSlot then Filled(BackButton)
    else Empty
  }

  function PluginListSlots(plugins: seq<PluginInfo>): (r: seq<Slot>)
    ensures |r| == PluginListSize
  {
    seq(PluginListSize, i => PluginListSlot(plugins, i))
  }

  /** showPluginList: the loop over the first 45 plugins and the back button. */
  method ShowPluginList(plugins: seq<PluginInfo>) returns (inv: array<Slot>)
    ensures fresh(inv) && inv.Length == PluginListSize
    ensures forall i :: 0 <= i < PluginListSize ==> inv[i] == PluginListSlot(plugins, i)
    ensures inv[..] == PluginListSlots(plugins)
  {
    inv := new Slot[PluginListSize](_ => Empty);
    var n := if |plugins| < MaxListedPlugins then |plugins| else MaxListedPlugins;
    for i := 0 to n
      invariant forall j :: 0 <= j < PluginListSize ==> inv[j] == if j < i then Filled(PluginEntry(plugins[j])) else Empty
    {
      inv[i] := Filled(PluginEntry(plugins[i]));
    }
    inv[BackSlot] := Filled(BackButton);
  }

  // ---------------------------------------------------------------------
  // onInventoryClick: what a click does
  // ---------------------------------------------------------------------

  datatype Action = NoAction | Restore | Minimize | Resize | ToggleOverlay | ToggleAutoRefresh | Close | Reopen | ShowPlugins

  /** A click on a window that is not one of ours is left alone; any other click is cancelled and may act. */
  datatype ClickResult = NotOurs | Handled(action: Action)

  /** The checks of the main and plugin-list windows: slot and material of the control buttons, then the material alone. */
  function MainClick(slot: int, m: Material): (a: Action)
    ensures a == Minimize <==> slot == 1 && m == GoldIngot
    ensures a == Resize <==> slot == 2 && m == OrangeWool
    ensures a == ToggleOverlay <==> slot == 4 && m == GrayWool
    ensures a == ToggleAutoRefresh <==> slot == 6 && (m == LimeWool || m == RedWool)
    ensures a == Close <==> slot == 7 && m == RedWool
    ensures a == Reopen <==> m == Emerald
    ensures a == ShowPlugins <==> m == Book
    ensures a != Restore
  {
    if slot == 1 && m == GoldIngot then Minimize
    else if slot == 2 && m == OrangeWool then Resize
    else if slot == 4 && m == GrayWool then ToggleOverlay
    else if slot == 6 && (m == LimeWool || m == RedWool) then ToggleAutoRefresh
    else if slot == 7 && m == RedWool then Close
    else if m == Emerald then Reopen
    else if m == Book then ShowPlugins
    else NoAction
  }

  /** onInventoryClick: which action a click on a slot holding an item of material `clicked` triggers. */
  function Dispatch(view: View, slot: int, clicked: Option<Material>): (r: ClickResult)
    ensures r == NotOurs <==> view == ForeignView
    ensures view != ForeignView && clicked == None ==> r == Handled(NoAction)
    ensures view == MinimizedView && r.Handled? ==> r.action in {NoAction, Restore, Close}
  {
    if view == ForeignView then NotOurs
    else
      match clicked
      case None => Handled(NoAction)
      case Some(m) =>
        if view == MinimizedView then
          Handled(if m == LimeWool then Restore else if m == Barrier then Close else NoAction)
        else
          var a := MainClick(slot, m);
          // The back arrow matches none of the checks above.
          Handled(if view == PluginDetailsView && m == Arrow then Reopen else a)
  }

  /** What a tile of the main or minimized window is for. */
  function Purpose(item: Item): Action
  {
    match item
    case MinimizeButton => Minimize
    case ResizeButton => Resize
    case OverlayButton => ToggleOverlay
    case AutoRefreshButton(_) => ToggleAutoRefresh
    case CloseButton => Close
    case RefreshButton => Reopen
    case PluginsTile => ShowPlugins
    case RestoreButton => Restore
    case MiniCloseButton => Close
    case BackButton => Reopen
    case _ => NoAction
  }

  /**
   * In the main window every click does what the clicked tile is for; in
   * particular the memory tile, a gold ingot like the minimize button, does
   * nothing because it is never in slot 1.
   */
  lemma MainWindowClicksMatchTiles(size: int, autoRefreshOn: bool, i: int)
    requires ValidSize(size) && 0 <= i < size && MainSlots(size, autoRefreshOn)[i].Filled?
    ensures var item := MainSlots(size, autoRefreshOn)[i].item;
      Dispatch(MainView, i, Some(MaterialOf(item))) == Handled(Purpose(item))
  {
    var item := MainSlots(size, autoRefreshOn)[i].item;
    if LayoutItem(LayoutFor(size), i).Some? {
      LayoutFitsWindow(size, i);
    }
  }

  /** In the minimized window, too, every click does what the clicked tile is for. */
  lemma MinimizedWindowClicksMatchTiles(i: int)
    requires 0 <= i < 9 && MinimizedSlots()[i].Filled?
    ensures var item := MinimizedSlots()[i].item;
      Dispatch(MinimizedView, i, Some(MaterialOf(item))) == Handled(Purpose(item))
  {
  }

  /**
   * In the plugin list the control checks still apply by slot and material:
   * the back button reopens the main window, the entry in slot 6 toggles
   * auto-refresh, a disabled plugin's entry in slot 7 closes the window,
   * and every other entry does nothing.
   */
  lemma PluginListClicks(plugins: seq<PluginInfo>, i: int)
    requires 0 <= i < PluginListSize && PluginListSlot(plugins, i).Filled?
    ensures var item := PluginListSlot(plugins, i).item;
      Dispatch(PluginDetailsView, i, Some(MaterialOf(item))) ==
        Handled(if i == BackSlot then Reopen
                else if i == 6 then ToggleAutoRefresh
                else if i == 7 && !plugins[i].enabled then Close
                else NoAction)
  {
  }

  // ---------------------------------------------------------------------
  // updateGUIItems: the tiles an auto-refresh rewrites
  // ---------------------------------------------------------------------

  /** The slots and tiles updateGUIItems rewrites for a window size. */
  function RefreshedTiles(size: int): (ts: seq<(int, Item)>)
    ensures forall j | 0 <= j < |ts| :: ts[j].1 != RefreshButton
    ensures forall j, l | 0 <= j < l < |ts| :: ts[j].0 < ts[l].0
    ensures 2 <= |ts| <= 6
  {
    if size >= 54 then
      [(11, CpuTile), (13, MemoryTile), (15, ServerTile), (29, PerformanceTile), (31, PluginsTile), (33, SystemTile)]
    else if size >= 36 then
      [(10, CpuTile), (12, MemoryTile), (14, ServerTile), (19, PluginsTile), (21, PerformanceTile), (23, SystemTile)]
    else if size >= 27 then
      [(10, CpuTile), (12, MemoryTile), (14, PluginsTile)]
    else
      [(10, CpuTile), (12, MemoryTile)]
  }

  /** Each slot an auto-refresh rewrites held that very tile since openGUI placed it. */
  lemma RefreshedTilesArePlaced(size: int)
    ensures forall j | 0 <= j < |RefreshedTiles(size)| ::
      LayoutItem(LayoutFor(size), RefreshedTiles(size)[j].0) == Some(RefreshedTiles(size)[j].1)
  {
  }

  /** Every tile openGUI placed, other than the refresh button, is rewritten by an auto-refresh. */
  lemma EveryTileRefreshed(size: int, i: int)
    requires LayoutItem(LayoutFor(size), i).Some? && LayoutItem(LayoutFor(size), i) != Some(RefreshButton)
    ensures (i, LayoutItem(LayoutFor(size), i).value) in RefreshedTiles(size)
  {
    match LayoutFor(size)
    case Full =>
    case Medium =>
    case Small =>
    case Minimal =>
  }
}
