/**
 * The per-player bookkeeping of ResourceMonitorGUI as values.
 *
 * A Registry holds what the four HashMaps of the class hold, up to the
 * identity of the task objects: each player's window state, the players
 * with a live auto-refresh task, the players with a live overlay task, and
 * the players who have seen the welcome text. Each transition of the class
 * is a function here; the class in module Monitor is proved to follow them.
 */
module SessionModel {
  import opened Wrappers
  import opened Widgets
  import opened Layout

  type PlayerId = nat

  /** The fields of WindowState that the controller reads and writes. */
  datatype Session = Session(minimized: bool, overlayMode: bool, windowSize: int)

  /** A WindowState as its constructor leaves it: not minimized, no overlay, 54 slots. */
  const DefaultSession: Session := Session(false, false, DefaultSize)

  datatype Registry = Registry(
    sessions: map<PlayerId, Session>,
    autoRefresh: set<PlayerId>,
    overlay: set<PlayerId>,
    welcomed: set<PlayerId>)

  const EmptyRegistry: Registry := Registry(map[], {}, {}, {})

  /** Window sizes are among the four the resize button cycles through. */
  ghost predicate SizesValid(r: Registry)
  {
    forall p | p in r.sessions :: ValidSize(r.sessions[p].windowSize)
  }

  /**
   * What every reachable registry satisfies: valid sizes, and only a player
   * with a window state has an auto-refresh task.
   */
  ghost predicate Inv(r: Registry)
  {
    SizesValid(r) && r.autoRefresh <= r.sessions.Keys
  }

  /** The player's state, or the one computeIfAbsent would create. */
  function SessionOf(r: Registry, p: PlayerId): Session
  {
    if p in r.sessions then r.sessions[p] else DefaultSession
  }

  function WithSession(r: Registry, p: PlayerId, s: Session): Registry
  {
    r.(sessions := r.sessions[p := s])
  }

  /** windowStates.computeIfAbsent. */
  function GetOrCreate(r: Registry, p: PlayerId): Registry
  {
    WithSession(r, p, SessionOf(r, p))
  }

  /** computeIfAbsent on a player who has a state changes nothing. */
  lemma GetOrCreateExisting(r: Registry, p: PlayerId)
    requires p in r.sessions
    ensures GetOrCreate(r, p) == r
  {
    assert r.sessions[p := r.sessions[p]] == r.sessions;
  }

  // The single writes the transitions are made of.

  /** The restore and minimize buttons set isMinimized. */
  function SetMinimized(r: Registry, p: PlayerId, minimized: bool): Registry
  {
    WithSession(r, p, SessionOf(r, p).(minimized := minimized))
  }

  /** state.windowSize = n. */
  function SetWindowSize(r: Registry, p: PlayerId, n: int): Registry
  {
    WithSession(r, p, SessionOf(r, p).(windowSize := n))
  }

  /** state.isOverlayMode = b. */
  function SetOverlayMode(r: Registry, p: PlayerId, b: bool): Registry
  {
    WithSession(r, p, SessionOf(r, p).(overlayMode := b))
  }

  /** The player's overlay task, if any, cancelled and removed. */
  function DropOverlayTask(r: Registry, p: PlayerId): Registry
  {
    r.(overlay := r.overlay - {p})
  }

  /** A new overlay task registered for the player. */
  function AddOverlayTask(r: Registry, p: PlayerId): Registry
  {
    r.(overlay := r.overlay + {p})
  }

  /** The player's auto-refresh task, if any, cancelled and removed. */
  function DropAutoRefreshTask(r: Registry, p: PlayerId): Registry
  {
    r.(autoRefresh := r.autoRefresh - {p})
  }

  /** A new auto-refresh task registered for the player. */
  function AddAutoRefreshTask(r: Registry, p: PlayerId): Registry
  {
    r.(autoRefresh := r.autoRefresh + {p})
  }

  /** windowStates.remove. */
  function DropSession(r: Registry, p: PlayerId): Registry
  {
    r.(sessions := r.sessions - {p})
  }

  // The transitions, step by step as the source takes them.

  /** cycleWindowSize: 27, 36, 45, 54 and round again; any other size becomes 54. */
  function Resize(r: Registry, p: PlayerId): Registry
  {
    var r1 := GetOrCreate(r, p);
    SetWindowSize(r1, p, NextWindowSize(SessionOf(r1, p).windowSize))
  }

  /** isOverlayActive: a window state exists and is in overlay mode. */
  predicate IsOverlayActive(r: Registry, p: PlayerId)
  {
    p in r.sessions && r.sessions[p].overlayMode
  }

  /** startOverlay (and enableOverlay): mode on, the old task cancelled, a new one registered. */
  function StartOverlay(r: Registry, p: PlayerId): Registry
  {
    AddOverlayTask(DropOverlayTask(SetOverlayMode(GetOrCreate(r, p), p, true), p), p)
  }

  /** stopOverlay (and disableOverlay): never creates a window state. */
  function StopOverlay(r: Registry, p: PlayerId): Registry
  {
    DropOverlayTask(if p in r.sessions then SetOverlayMode(r, p, false) else r, p)
  }

  /** toggleOverlayMode, the overlay button of the window. */
  function ToggleOverlayMode(r: Registry, p: PlayerId): Registry
  {
    var r1 := GetOrCreate(r, p);
    if SessionOf(r1, p).overlayMode then StopOverlay(r1, p) else StartOverlay(r1, p)
  }

  /** The toggle the chat hotkey runs in Main.onPlayerChat. */
  function HotkeyToggle(r: Registry, p: PlayerId): Registry
  {
    if IsOverlayActive(r, p) then StopOverlay(r, p) else StartOverlay(r, p)
  }

  /** startAutoRefresh: the old task cancelled, a new one registered. */
  function StartAutoRefresh(r: Registry, p: PlayerId): Registry
  {
    AddAutoRefreshTask(DropAutoRefreshTask(r, p), p)
  }

  /** toggleAutoRefresh. */
  function ToggleAutoRefresh(r: Registry, p: PlayerId): Registry
  {
    if p in r.autoRefresh then DropAutoRefreshTask(r, p) else StartAutoRefresh(r, p)
  }

  /** closeWindow: the auto-refresh task and the window state go; the overlay task stays. */
  function CloseWindow(r: Registry, p: PlayerId): Registry
  {
    DropSession(DropAutoRefreshTask(r, p), p)
  }

  /** hasSeenWelcome. */
  predicate HasSeenWelcome(r: Registry, p: PlayerId)
  {
    p in r.welcomed
  }

  /** markWelcomeSeen. */
  function MarkWelcomeSeen(r: Registry, p: PlayerId): Registry
  {
    r.(welcomed := r.welcomed + {p})
  }

  /** A tick of a live overlay task: it ends itself when the player is offline. */
  function OverlayTick(r: Registry, p: PlayerId, online: bool): Registry
  {
    if online then r else DropOverlayTask(r, p)
  }

  /** A tick of a live auto-refresh task: it ends itself when the player is offline. */
  function AutoRefreshTick(r: Registry, p: PlayerId, online: bool): Registry
  {
    if online then r else DropAutoRefreshTask(r, p)
  }

  /** onInventoryClick on one of our windows with an item under the cursor: state first, then the action. */
  function Click(r: Registry, p: PlayerId, a: Action): Registry
  {
    var r1 := GetOrCreate(r, p);
    match a
    case NoAction => r1
    case Restore => SetMinimized(r1, p, false)
    case Minimize => SetMinimized(r1, p, true)
    case Resize => Resize(r1, p)
    case ToggleOverlay => ToggleOverlayMode(r1, p)
    case ToggleAutoRefresh => ToggleAutoRefresh(r1, p)
    case Close => CloseWindow(r1, p)
    case Reopen => r1
    case ShowPlugins => r1
  }

  /** The window openGUI shows a player who has a window state. */
  function OpenedWindow(r: Registry, p: PlayerId): Window
    requires SizesValid(r) && p in r.sessions
  {
    var s := r.sessions[p];
    if s.minimized then Window(MinimizedView, MinimizedSlots())
    else Window(MainView, MainSlots(s.windowSize, p in r.autoRefresh))
  }

  /**
   * onInventoryClick: a click on a foreign window, or on an empty slot,
   * changes nothing (the latter returns before the state is created); any
   * other click runs the action Dispatch picks.
   */
  function InventoryClick(r: Registry, p: PlayerId, view: View, slot: int, clicked: Option<Material>): Registry
  {
    match Dispatch(view, slot, clicked)
    case NotOurs => r
    case Handled(a) => if clicked.None? then r else Click(r, p, a)
  }

  /** What the player sees after a click. */
  datatype Screen =
    | Ignored                              // not our window: the click goes through
    | Unchanged                            // cancelled, the window stays as it is
    | Opened(w: Window)                    // a window (re)opened
    | ButtonRedrawn(slot: nat, item: Item) // one slot of the open window redrawn
    | Closed                               // the inventory closed

  lemma ClickKeepsSizes(r: Registry, p: PlayerId, a: Action)
    requires SizesValid(r)
    ensures SizesValid(Click(r, p, a))
    ensures p in Click(r, p, a).sessions <==> a != Action.Close
  {
    if a == Action.Resize {
      assert ValidSize(Click(r, p, a).sessions[p].windowSize);
    }
  }

  /**
   * The screen after an action, from the registry before it: openGUI after
   * restore, minimize, resize and refresh; the plugin list; the inventory
   * closed when the overlay is switched on or the window closed; the
   * auto-refresh button redrawn with the new setting.
   */
  function ActionScreen(r: Registry, p: PlayerId, a: Action, plugins: seq<PluginInfo>): Screen
    requires SizesValid(r)
  {
    var r' := Click(r, p, a);
    ClickKeepsSizes(r, p, a);
    match a
    case NoAction => Unchanged
    case Restore => Opened(OpenedWindow(r', p))
    case Minimize => Opened(OpenedWindow(r', p))
    case Resize => Opened(OpenedWindow(r', p))
    case Reopen => Opened(OpenedWindow(r', p))
    case ShowPlugins => Opened(Window(PluginDetailsView, PluginListSlots(plugins)))
    case ToggleOverlay => if SessionOf(r, p).overlayMode then Unchanged else Closed
    case ToggleAutoRefresh => ButtonRedrawn(6, AutoRefreshButton(p in r'.autoRefresh))
    case Close => Closed
  }

  /** Creating the state before a click changes neither what the click does nor what it shows. */
  lemma ClickAfterGetOrCreate(r: Registry, p: PlayerId, a: Action, plugins: seq<PluginInfo>)
    requires SizesValid(r)
    ensures SizesValid(GetOrCreate(r, p))
    ensures Click(GetOrCreate(r, p), p, a) == Click(r, p, a)
    ensures ActionScreen(GetOrCreate(r, p), p, a, plugins) == ActionScreen(r, p, a, plugins)
  {
    var r1 := GetOrCreate(r, p);
    GetOrCreateExisting(r1, p);
    assert SessionOf(r1, p) == SessionOf(r, p);
  }

  /** The screen after a click: foreign windows are ignored, empty slots do nothing. */
  function ClickScreen(r: Registry, p: PlayerId, view: View, slot: int, clicked: Option<Material>, plugins: seq<PluginInfo>): Screen
    requires SizesValid(r)
  {
    match Dispatch(view, slot, clicked)
    case NotOurs => Ignored
    case Handled(a) => if clicked.None? then Unchanged else ActionScreen(r, p, a, plugins)
  }

  // ---------------------------------------------------------------------
  // Events and their properties
  // ---------------------------------------------------------------------

  /** Everything that changes the registry, with the player it concerns. */
  datatype Event =
    | Open(p: PlayerId)
    | ClickAction(p: PlayerId, a: Action)
    | Hotkey(p: PlayerId)
    | Welcome(p: PlayerId)
    | OverlayTicked(p: PlayerId, online: bool)
    | AutoRefreshTicked(p: PlayerId, online: bool)

  function Step(r: Registry, e: Event): Registry
  {
    match e
    case Open(p) => GetOrCreate(r, p)
    case ClickAction(p, a) => Click(r, p, a)
    case Hotkey(p) => HotkeyToggle(r, p)
    case Welcome(p) => MarkWelcomeSeen(r, p)
    case OverlayTicked(p, online) => OverlayTick(r, p, online)
    case AutoRefreshTicked(p, online) => AutoRefreshTick(r, p, online)
  }

  /** Every event keeps the invariant. */
  lemma StepPreservesInv(r: Registry, e: Event)
    requires Inv(r)
    ensures Inv(Step(r, e))
  {
    match e
    case ClickAction(p, a) =>
      var r1 := GetOrCreate(r, p);
      assert Inv(r1);
      if a == Action.Resize {
        assert ValidSize(Resize(r1, p).sessions[p].windowSize);
      }
    case _ =>
  }

  /** An event changes nothing that belongs to another player. */
  lemma StepIsLocal(r: Registry, e: Event, q: PlayerId)
    requires q != e.p
    ensures var r' := Step(r, e);
      && (q in r'.sessions <==> q in r.sessions)
      && (q in r.sessions ==> r'.sessions[q] == r.sessions[q])
      && (q in r'.autoRefresh <==> q in r.autoRefresh)
      && (q in r'.overlay <==> q in r.overlay)
      && (q in r'.welcomed <==> q in r.welcomed)
  {
  }

  /** Task ticks never touch window states or the welcome flags. */
  lemma TicksLeaveSessions(r: Registry, p: PlayerId, online: bool)
    ensures OverlayTick(r, p, online).sessions == r.sessions
    ensures AutoRefreshTick(r, p, online).sessions == r.sessions
    ensures OverlayTick(r, p, online).autoRefresh == r.autoRefresh
    ensures AutoRefreshTick(r, p, online).overlay == r.overlay
  {
  }

  /** Four resizes bring the window back to its size; nothing else changes but the lazy creation. */
  lemma {:induction false} ResizeFourTimes(r: Registry, p: PlayerId)
    requires Inv(r)
    ensures Resize(Resize(Resize(Resize(r, p), p), p), p) == GetOrCreate(r, p)
  {
    var s := SessionOf(r, p);
    assert ValidSize(s.windowSize);
    CycleHasPeriodFour(s.windowSize);
  }

  /** Two hotkeys in a row give back the overlay flag. */
  lemma HotkeyTwiceRestoresFlag(r: Registry, p: PlayerId)
    ensures IsOverlayActive(HotkeyToggle(HotkeyToggle(r, p), p), p) == IsOverlayActive(r, p)
    ensures IsOverlayActive(r, p) ==> p in HotkeyToggle(HotkeyToggle(r, p), p).overlay
    ensures !IsOverlayActive(r, p) ==> p !in HotkeyToggle(HotkeyToggle(r, p), p).overlay
  {
  }

  /** One hotkey flips the overlay flag and leaves the live task matching the flag. */
  lemma HotkeyFlips(r: Registry, p: PlayerId)
    ensures IsOverlayActive(HotkeyToggle(r, p), p) == !IsOverlayActive(r, p)
    ensures (p in HotkeyToggle(r, p).overlay) == IsOverlayActive(HotkeyToggle(r, p), p)
  {
  }

  /** Toggling auto-refresh twice gives back the registry. */
  lemma ToggleAutoRefreshTwice(r: Registry, p: PlayerId)
    ensures (p in ToggleAutoRefresh(r, p).autoRefresh) == (p !in r.autoRefresh)
    ensures ToggleAutoRefresh(ToggleAutoRefresh(r, p), p) == r
  {
    if p in r.autoRefresh {
      assert r.autoRefresh - {p} + {p} == r.autoRefresh;
    } else {
      assert r.autoRefresh + {p} - {p} == r.autoRefresh;
    }
  }

  /** Closing and opening again gives the default state and no auto-refresh, whatever came before. */
  lemma CloseThenOpen(r: Registry, p: PlayerId)
    ensures var r' := GetOrCreate(CloseWindow(r, p), p);
      r'.sessions[p] == DefaultSession && p !in r'.autoRefresh
  {
  }

  /** Closing the window keeps a live overlay task running, unlike the auto-refresh task. */
  lemma CloseKeepsOverlay(r: Registry, p: PlayerId)
    ensures CloseWindow(r, p).overlay == r.overlay
    ensures p !in CloseWindow(r, p).sessions && p !in CloseWindow(r, p).autoRefresh
  {
  }

  /** After the overlay button, the overlay flag and the live overlay task agree. */
  lemma ToggleOverlayModeAgrees(r: Registry, p: PlayerId)
    ensures var r' := ToggleOverlayMode(r, p);
      p in r'.sessions && r'.sessions[p].overlayMode == !SessionOf(r, p).overlayMode
      && (p in r'.overlay <==> r'.sessions[p].overlayMode)
  {
  }

  /**
   * A player's first session: open (54 slots, normal), resize (27), overlay
   * on by hotkey (overlay task live), overlay off by hotkey (no task), close
   * (no state, no task).
   */
  lemma FirstSessionScenario(r: Registry, p: PlayerId)
    requires p !in r.sessions && p !in r.autoRefresh && p !in r.overlay
    ensures var r1 := Step(r, Open(p));
      r1.sessions[p] == Session(false, false, 54)
    ensures var r2 := Step(Step(r, Open(p)), ClickAction(p, Action.Resize));
      r2.sessions[p].windowSize == 27
    ensures var r3 := Step(Step(Step(r, Open(p)), ClickAction(p, Action.Resize)), Hotkey(p));
      r3.sessions[p].overlayMode && p in r3.overlay
    ensures var r4 := Step(Step(Step(Step(r, Open(p)), ClickAction(p, Action.Resize)), Hotkey(p)), Hotkey(p));
      !r4.sessions[p].overlayMode && p !in r4.overlay
    ensures var r5 := Step(Step(Step(Step(Step(r, Open(p)), ClickAction(p, Action.Resize)), Hotkey(p)), Hotkey(p)), ClickAction(p, Action.Close));
      p !in r5.sessions && p !in r5.autoRefresh && p !in r5.overlay
  {
  }

  /** A click on auto-refresh for a player without state creates the default state and one task; a second removes it. */
  lemma AutoRefreshScenario(r: Registry, p: PlayerId)
    requires p !in r.sessions && p !in r.autoRefresh
    ensures var r1 := Step(r, ClickAction(p, Action.ToggleAutoRefresh));
      r1.sessions[p] == DefaultSession && p in r1.autoRefresh
    ensures var r2 := Step(Step(r, ClickAction(p, Action.ToggleAutoRefresh)), ClickAction(p, Action.ToggleAutoRefresh));
      p !in r2.autoRefresh
  {
  }
}
