# ResourceMonitor, modelled in Dafny

ResourceMonitor is a Minecraft server plugin. A player with the
`resourcemonitor.use` permission opens an inventory window that shows the
server's processor load, memory and plugins. The window can be minimized,
resized through four sizes, or swapped for an overlay line that a
repeating task pushes to the player. A second repeating task can refresh
the window's tiles every ten seconds. Chat words act as a hotkey for the
overlay.

This project models the bookkeeping behind that window for every player:

- the window state of each player, created lazily;
- at most one live auto-refresh task and one live overlay task per player;
- the once-only welcome flag;
- the transitions that the click handler, the hotkey and the command run on them.

It also models the pure helpers the window uses: layout choice, border,
progress bar, uptime, description shortening, plugin counting and colour
bands.

Files:

- `bands.dfy` (`Bands`): the colour thresholds of both classes.
- `widgets.dfy` (`Widgets`): the progress bar, the uptime, the shortened
  description and the plugin count. It also holds Java's `(int)` cast and
  its integer `/` and `%`.
- `layout.dfy` (`Layout`): the window sizes, the layout for a size, the
  border, the main, minimized and plugin-list windows, and which action a
  click triggers.
- `session_model.dfy` (`SessionModel`): the four maps as a value (a
  `Registry`) and every transition as a function over it. The
  properties of the state machine are proved here.
- `monitor.dfy` (`Monitor`): the controller as classes. `WindowState`
  objects are updated in place. `Task` handles carry a `cancelled` flag, and
  an overlay task holds the `WindowState` it was started with.
  `ResourceMonitor` keeps the four maps.
  - Its invariant `Valid()` says a task is live exactly when it is the one
    registered for its player and kind. So no player ever has two live
    tasks of one kind, and a live overlay task always sees its state in
    overlay mode.
  - Every method is proved to follow its `SessionModel` function, read
    through `Abstract()`.
- `plugin_main.dfy` (`PluginMain`): the plugin class. It covers the chat
  hotkey, the case-insensitive command name, the permission gate, the
  once-only welcome, and opening the window.
- `wrappers.dfy` (`Wrappers`): `Option`.

Where the code departs from the intended design, the model follows the code:

- `closeWindow` cancels the auto-refresh task and removes the window state.
  It leaves the overlay task running, still holding the removed state (see
  `SessionModel.CloseKeepsOverlay`).
- A tick of the auto-refresh task cancels itself only when the player is
  offline. When the main window is not open it does nothing and keeps
  running.
- `startOverlay` cancels and replaces a live overlay task instead of
  keeping it.
- `toggleAutoRefresh` does not depend on the overlay mode. Its button is
  reachable from the main window both in normal and in overlay mode, and
  through slot 6 of the plugin list; only the minimized window, which has
  no such button, cannot reach it. A player can have a live overlay task
  and a live auto-refresh task at the same time.
- The hotkey switches the overlay on without closing the open inventory;
  only the window's overlay button closes it.
- `stopOverlay` in the source clears the mode flag before it cancels the
  task. `Monitor.ResourceMonitor.StopOverlay` cancels first: the two writes
  touch different objects and nothing runs between them.
- The overlay task's check "the state has left overlay mode" can never fire
  for a live task. `stopOverlay` always cancels the task whose state it
  switches off, so under `Valid()` a live overlay task stops only when its
  player goes offline (`Monitor.ResourceMonitor.OverlayTick`).
- In the plugin list the checks of the main window still apply by slot and
  material. A disabled plugin's entry in slot 7 is red wool, so clicking it
  closes the whole window. The entry in slot 6 toggles auto-refresh. See
  `Layout.PluginListClicks`.

## Model

| member | source | states |
|---|---|---|
| Bands.GuiCpuBand | src/main/java/com/resourcemonitor/ResourceMonitorGUI.java:902-906 | green exactly below 50, yellow exactly from 50 up to (not including) 80, red exactly from 80 |
| Bands.GuiMemoryBand | src/main/java/com/resourcemonitor/ResourceMonitorGUI.java:908-912 | green exactly below 60, yellow exactly from 60 below 85, red exactly from 85 |
| Bands.MainCpuBand | src/main/java/com/resourcemonitor/Main.java:135-139 | green exactly below 30, yellow exactly from 30 below 70, red exactly from 70 |
| Bands.MainMemoryBand | src/main/java/com/resourcemonitor/Main.java:141-145 | green exactly below 50, yellow exactly from 50 below 80, red exactly from 80 |
| Bands.BandedMonotone | src/main/java/com/resourcemonitor/ResourceMonitorGUI.java:902-912 | a higher reading never gets a milder colour, for any pair of thresholds |
| Bands.MainBandsAtLeastAsSevere | src/main/java/com/resourcemonitor/Main.java:135-145 | for the same reading the console colour is never milder than the window colour; 40% processor load is yellow in one and green in the other |
| Widgets.TruncateTowardZero | src/main/java/com/resourcemonitor/ResourceMonitorGUI.java:947 | the integer part of a double: at most the value when it is non-negative, at least the value when negative, less than one away |
| Widgets.DoubleToInt | src/main/java/com/resourcemonitor/ResourceMonitorGUI.java:947 | Java's `(int)` cast of a double: within the 32-bit range, and the truncation whenever that fits |
| Widgets.FilledCount | src/main/java/com/resourcemonitor/ResourceMonitorGUI.java:947-955 | the number of filled cells never exceeds ten |
| Widgets.CreateProgressBar | src/main/java/com/resourcemonitor/ResourceMonitorGUI.java:946-959 | exactly ten cells; cell i is filled exactly when i is below the truncated tenth of the percentage (clamped to 0..10); filled cells come first, then empty ones |
| Widgets.FilledCountMeaning | src/main/java/com/resourcemonitor/ResourceMonitorGUI.java:947-955 | for 0..100 percent, k filled cells mean at least 10k percent, and less than 10(k+1) percent unless the bar is full |
| Widgets.FilledCountExtremes | src/main/java/com/resourcemonitor/ResourceMonitorGUI.java:947-955 | a reading below 10 (negative ones included) shows an empty bar, one of 100 or more a full bar |
| Widgets.GetUptime | src/main/java/com/resourcemonitor/ResourceMonitorGUI.java:961-966 | a non-negative uptime gives non-negative hours and minutes in 0..59; a negative one gives non-positive parts, as Java's truncating division does |
| Widgets.UptimeBounds | src/main/java/com/resourcemonitor/ResourceMonitorGUI.java:961-966 | for a non-negative uptime, minutes lie in 0..59 and hours and minutes account for the uptime up to less than a minute |
| Widgets.UptimeOfComposed | src/main/java/com/resourcemonitor/ResourceMonitorGUI.java:961-966 | splitting h hours, m < 60 minutes and under a minute of milliseconds gives back (h, m) |
| Widgets.ShortDescription | src/main/java/com/resourcemonitor/ResourceMonitorGUI.java:872-876 | at most 40 characters; a description of up to 40 is kept; a longer one keeps its first 37 characters and ends in "..." |
| Widgets.ShortDescriptionIdempotent | src/main/java/com/resourcemonitor/ResourceMonitorGUI.java:872-876 | shortening a shortened description changes nothing |
| Widgets.EnabledCountIsCardinality | src/main/java/com/resourcemonitor/ResourceMonitorGUI.java:415-424 | the number of enabled plugins is the number of positions holding an enabled plugin, and at most the list's length |
| Widgets.CountPlugins | src/main/java/com/resourcemonitor/ResourceMonitorGUI.java:415-424 | the loop counts exactly the enabled plugins, and enabled plus disabled is the total |
| Layout.NextWindowSize | src/main/java/com/resourcemonitor/ResourceMonitorGUI.java:551-567 | the next size is always one of 27, 36, 45, 54; any other size goes to 54; a valid size grows, except 54, which wraps to 27 |
| Layout.CycleHasPeriodFour | src/main/java/com/resourcemonitor/ResourceMonitorGUI.java:551-567 | four resizes bring a valid size back, not fewer, and visit all four sizes |
| Layout.LayoutFor | src/main/java/com/resourcemonitor/ResourceMonitorGUI.java:65-81 | full layout exactly from 54, medium exactly from 36 below 54, small exactly from 27 below 36, minimal below 27 |
| Layout.ValidSizeLayouts | src/main/java/com/resourcemonitor/ResourceMonitorGUI.java:65-81 | a size reached by resizing never picks the minimal layout, and picks the medium one exactly for 36 and 45 |
| Layout.LayoutItem | src/main/java/com/resourcemonitor/ResourceMonitorGUI.java:251-311 | every tile lies below the top row and off the first and last columns, and is one of the six reading tiles or the refresh button; the processor tile sits at slot 11 in the full layout and at slot 10 in the others |
| Layout.LastTileSlot | src/main/java/com/resourcemonitor/ResourceMonitorGUI.java:251-311 | no layout writes beyond its last tile slot |
| Layout.LayoutFitsWindow | src/main/java/com/resourcemonitor/ResourceMonitorGUI.java:251-311 | for a valid size every tile lies inside the window below the top row, never on a control button's slot |
| Layout.Bordered | src/main/java/com/resourcemonitor/ResourceMonitorGUI.java:216-249 | the window keeps its size (what the border writes is stated by Layout.BorderedProperties) |
| Layout.BorderedProperties | src/main/java/com/resourcemonitor/ResourceMonitorGUI.java:216-249 | the border never replaces an item, never touches an inner slot, leaves no slot of the first row, last row, first or last column empty, and drawing it twice is drawing it once |
| Layout.CreateBorder | src/main/java/com/resourcemonitor/ResourceMonitorGUI.java:216-249 | the three loops leave the array equal to the bordered contents of the array before |
| Layout.MainSlots | src/main/java/com/resourcemonitor/ResourceMonitorGUI.java:59-81 | the main window has as many slots as its size |
| Layout.PlaceWindowControls | src/main/java/com/resourcemonitor/ResourceMonitorGUI.java:91-162 | slots 1, 2, 4, 6, 7 receive minimize, resize, overlay, auto-refresh (showing the setting) and close; every other slot is kept |
| Layout.PlaceLayout | src/main/java/com/resourcemonitor/ResourceMonitorGUI.java:251-311 | each tile slot of the layout receives its tile; every other slot is kept |
| Layout.BuildMainWindow | src/main/java/com/resourcemonitor/ResourceMonitorGUI.java:59-81 | controls, then border, then layout produce a fresh array equal to the main window of that size and setting |
| Layout.MainWindowShape | src/main/java/com/resourcemonitor/ResourceMonitorGUI.java:59-81 | a slot of the main window is empty exactly when it is inner and no tile uses it; slot 6 shows the auto-refresh setting |
| Layout.MinimizedSlots | src/main/java/com/resourcemonitor/ResourceMonitorGUI.java:164-214 | the minimized window has nine slots |
| Layout.Listed | src/main/java/com/resourcemonitor/ResourceMonitorGUI.java:848 | the list shows all plugins when there are fewer than 45, else exactly 45 |
| Layout.PluginListSlots | src/main/java/com/resourcemonitor/ResourceMonitorGUI.java:842-900 | the plugin list has 54 slots |
| Layout.MainClick | src/main/java/com/resourcemonitor/ResourceMonitorGUI.java:501-528 | the checks of the click handler never overlap: each action fires exactly on its own slot and material (minimize on a gold ingot in slot 1, resize on orange wool in 2, overlay on gray wool in 4, auto-refresh on lime or red wool in 6, close on red wool in 7, refresh on an emerald anywhere, plugins on a book anywhere), and restore is never picked here |
| Layout.ShowPluginList | src/main/java/com/resourcemonitor/ResourceMonitorGUI.java:842-900 | a fresh 54-slot array: the i-th listed plugin's entry at slot i, the back arrow at slot 53, nothing else |
| Layout.Dispatch | src/main/java/com/resourcemonitor/ResourceMonitorGUI.java:467-535 | a click is left alone exactly on a window that is not ours; a click on an empty slot does nothing; the minimized window only restores or closes |
| Layout.MainWindowClicksMatchTiles | src/main/java/com/resourcemonitor/ResourceMonitorGUI.java:467-535 | in the main window every filled slot, clicked, does what its tile is for (the memory tile, a gold ingot, is never taken for minimize) |
| Layout.MinimizedWindowClicksMatchTiles | src/main/java/com/resourcemonitor/ResourceMonitorGUI.java:488-498 | in the minimized window every filled slot, clicked, does what its tile is for |
| Layout.PluginListClicks | src/main/java/com/resourcemonitor/ResourceMonitorGUI.java:504-534 | in the plugin list the back arrow reopens, the entry in slot 6 toggles auto-refresh, a disabled entry in slot 7 closes, every other entry does nothing |
| Layout.RefreshedTiles | src/main/java/com/resourcemonitor/ResourceMonitorGUI.java:797-819 | an auto-refresh never rewrites the refresh button, writes each slot at most once in increasing order, and rewrites between two and six tiles |
| Layout.RefreshedTilesArePlaced | src/main/java/com/resourcemonitor/ResourceMonitorGUI.java:789-823 | every slot an auto-refresh rewrites held that same tile in the window openGUI built for the size |
| Layout.EveryTileRefreshed | src/main/java/com/resourcemonitor/ResourceMonitorGUI.java:789-823 | every tile openGUI placed, except the refresh button, is rewritten by an auto-refresh |
| SessionModel.GetOrCreateExisting | src/main/java/com/resourcemonitor/ResourceMonitorGUI.java:53 | computeIfAbsent on a player who has a state changes nothing |
| SessionModel.ClickKeepsSizes | src/main/java/com/resourcemonitor/ResourceMonitorGUI.java:481-534 | a click keeps every size valid, and the player has a state afterwards exactly unless the action closed the window |
| SessionModel.ClickAfterGetOrCreate | src/main/java/com/resourcemonitor/ResourceMonitorGUI.java:481 | creating the state before the action changes neither the action's effect nor what the player sees |
| SessionModel.StepPreservesInv | src/main/java/com/resourcemonitor/ResourceMonitorGUI.java:467-840 | every event keeps all sizes valid and keeps auto-refresh tasks only for players who have a state |
| SessionModel.StepIsLocal | src/main/java/com/resourcemonitor/ResourceMonitorGUI.java:467-840 | an event for one player changes no other player's state, tasks or welcome flag |
| SessionModel.TicksLeaveSessions | src/main/java/com/resourcemonitor/ResourceMonitorGUI.java:613-621 | task ticks never touch window states, and each tick touches only its own kind of task |
| SessionModel.ResizeFourTimes | src/main/java/com/resourcemonitor/ResourceMonitorGUI.java:545-567 | four resizes give back the registry, apart from the state the first one creates |
| SessionModel.HotkeyTwiceRestoresFlag | src/main/java/com/resourcemonitor/Main.java:168-176 | two hotkeys in a row give back the overlay flag, with the overlay task live exactly when the flag was on |
| SessionModel.HotkeyFlips | src/main/java/com/resourcemonitor/Main.java:168-176 | one hotkey flips isOverlayActive, and afterwards the overlay task is live exactly when the overlay is active |
| SessionModel.ToggleAutoRefreshTwice | src/main/java/com/resourcemonitor/ResourceMonitorGUI.java:704-723 | one toggle flips whether the auto-refresh task is live; two toggles give back the registry |
| SessionModel.CloseThenOpen | src/main/java/com/resourcemonitor/ResourceMonitorGUI.java:825-840 | after closing, opening again gives the default state and no auto-refresh task, whatever came before |
| SessionModel.CloseKeepsOverlay | src/main/java/com/resourcemonitor/ResourceMonitorGUI.java:825-840 | closing removes the state and the auto-refresh task and leaves the overlay tasks as they were |
| SessionModel.ToggleOverlayModeAgrees | src/main/java/com/resourcemonitor/ResourceMonitorGUI.java:581-597 | the overlay button flips the flag (starting from the default state if none exists), and afterwards the overlay task is live exactly when the flag is on |
| SessionModel.FirstSessionScenario | src/main/java/com/resourcemonitor/ResourceMonitorGUI.java:545-645 | open gives 54 slots, normal; resize gives 27; hotkey gives overlay with a live task; hotkey again gives no overlay and no task; close leaves no state and no task |
| SessionModel.AutoRefreshScenario | src/main/java/com/resourcemonitor/ResourceMonitorGUI.java:704-787 | the auto-refresh button on a player without state creates the default state and one live task; a second click removes it |
| Monitor.WindowState.constructor | src/main/java/com/resourcemonitor/ResourceMonitorGUI.java:42-49 | a new state is not minimized, not in overlay mode, 54 slots, view "main" |
| Monitor.Task.Cancel | src/main/java/com/resourcemonitor/ResourceMonitorGUI.java:607 | a cancelled task runs no more |
| Monitor.Task.constructor | src/main/java/com/resourcemonitor/ResourceMonitorGUI.java:611-623 | a new task belongs to its player and kind, holds the state it is given (the overlay task captures the player's state; the auto-refresh task, built at lines 765-783, holds none) and starts live |
| Monitor.ResourceMonitor.AtMostOneLiveTask | src/main/java/com/resourcemonitor/ResourceMonitorGUI.java:34-35 | two live tasks of the same player and kind are the same task |
| Monitor.ResourceMonitor.AbstractSizesValid | src/main/java/com/resourcemonitor/ResourceMonitorGUI.java:545-567 | every stored window size is one of the four |
| Monitor.ResourceMonitor.constructor | src/main/java/com/resourcemonitor/ResourceMonitorGUI.java:33-41 | the controller starts with no states, no tasks, no welcome flags |
| Monitor.ResourceMonitor.GetOrCreateState | src/main/java/com/resourcemonitor/ResourceMonitorGUI.java:53 | the stored state if there is one, else a fresh default state stored for the player; nothing else changes |
| Monitor.ResourceMonitor.SetMinimized | src/main/java/com/resourcemonitor/ResourceMonitorGUI.java:490 | writing isMinimized on the player's state object changes that field and no other player's state |
| Monitor.ResourceMonitor.SetWindowSize | src/main/java/com/resourcemonitor/ResourceMonitorGUI.java:551-567 | writing windowSize changes that field only, and the size stays valid |
| Monitor.ResourceMonitor.SetOverlayMode | src/main/java/com/resourcemonitor/ResourceMonitorGUI.java:602 | writing isOverlayMode changes that field only; switching it off needs the overlay task gone, so live overlay tasks keep seeing overlay mode |
| Monitor.ResourceMonitor.CancelOverlayTask | src/main/java/com/resourcemonitor/ResourceMonitorGUI.java:637-641 | the player's overlay task, if any, is cancelled and its entry removed; nothing else changes |
| Monitor.ResourceMonitor.CancelAutoRefreshTask | src/main/java/com/resourcemonitor/ResourceMonitorGUI.java:829-833 | the player's auto-refresh task, if any, is cancelled and its entry removed; nothing else changes |
| Monitor.ResourceMonitor.RegisterOverlayTask | src/main/java/com/resourcemonitor/ResourceMonitorGUI.java:611-626 | a fresh live task holding the player's state is registered; the invariant holds again |
| Monitor.ResourceMonitor.RegisterAutoRefreshTask | src/main/java/com/resourcemonitor/ResourceMonitorGUI.java:765-786 | a fresh live task is registered; the invariant holds again |
| Monitor.ResourceMonitor.RemoveState | src/main/java/com/resourcemonitor/ResourceMonitorGUI.java:836 | the player's state leaves the map; an overlay task may still hold it, and the invariant survives |
| Monitor.ResourceMonitor.IsOverlayActive | src/main/java/com/resourcemonitor/ResourceMonitorGUI.java:682-685 | true exactly when the player has a state in overlay mode |
| Monitor.ResourceMonitor.HasSeenWelcome | src/main/java/com/resourcemonitor/ResourceMonitorGUI.java:696-698 | true exactly when the player's welcome flag is set; absent counts as false |
| Monitor.ResourceMonitor.MarkWelcomeSeen | src/main/java/com/resourcemonitor/ResourceMonitorGUI.java:700-702 | sets the player's welcome flag and nothing else |
| Monitor.ResourceMonitor.StartOverlay | src/main/java/com/resourcemonitor/ResourceMonitorGUI.java:599-627 | overlay mode on (state created if absent), the earlier overlay task cancelled, exactly one fresh live task registered holding the player's state; other players' tasks and all auto-refresh tasks unchanged |
| Monitor.ResourceMonitor.StopOverlay | src/main/java/com/resourcemonitor/ResourceMonitorGUI.java:629-645 | overlay mode off only if a state exists (none is created); the overlay task cancelled and removed if present |
| Monitor.ResourceMonitor.ToggleOverlayMode | src/main/java/com/resourcemonitor/ResourceMonitorGUI.java:581-597 | stop when the (created) state is in overlay mode, start otherwise; the inventory is closed exactly when the overlay is switched on |
| Monitor.ResourceMonitor.OverlayTick | src/main/java/com/resourcemonitor/ResourceMonitorGUI.java:613-621 | a live overlay task shows the overlay exactly while its player is online; otherwise it cancels itself and removes its entry |
| Monitor.ResourceMonitor.StartAutoRefresh | src/main/java/com/resourcemonitor/ResourceMonitorGUI.java:755-787 | the earlier auto-refresh task cancelled, exactly one fresh live task registered; other players' tasks unchanged |
| Monitor.ResourceMonitor.ToggleAutoRefresh | src/main/java/com/resourcemonitor/ResourceMonitorGUI.java:704-753 | a live task is cancelled and removed, else one is started; the redrawn button shows the new setting, the opposite of the old one |
| Monitor.ResourceMonitor.AutoRefreshTick | src/main/java/com/resourcemonitor/ResourceMonitorGUI.java:767-823 | offline, the task cancels itself and removes its entry; online with the main window open and a state, it rewrites the tiles for the state's size; otherwise it does nothing and keeps running |
| Monitor.ResourceMonitor.CloseWindow | src/main/java/com/resourcemonitor/ResourceMonitorGUI.java:825-840 | the auto-refresh task cancelled and removed, the state removed; overlay tasks and welcome flags unchanged |
| Monitor.ResourceMonitor.OpenGUI | src/main/java/com/resourcemonitor/ResourceMonitorGUI.java:52-89 | the state created if absent; the minimized window when minimized, else the main window for the state's size and auto-refresh setting |
| Monitor.ResourceMonitor.CycleWindowSize | src/main/java/com/resourcemonitor/ResourceMonitorGUI.java:545-579 | the next size stored, then the window opened for it; no task changes |
| Monitor.ResourceMonitor.MinimizeAndReopen | src/main/java/com/resourcemonitor/ResourceMonitorGUI.java:490-505 | the minimized flag set, then the minimized or main window opened accordingly |
| Monitor.ResourceMonitor.RunWindowAction | src/main/java/com/resourcemonitor/ResourceMonitorGUI.java:487-534 | restore, minimize, resize, refresh, back and plugins do what the action is specified to do and open the specified window |
| Monitor.ResourceMonitor.RunTaskAction | src/main/java/com/resourcemonitor/ResourceMonitorGUI.java:487-534 | the overlay, auto-refresh and close buttons do what the action is specified to do and leave the specified screen |
| Monitor.ResourceMonitor.OnInventoryClick | src/main/java/com/resourcemonitor/ResourceMonitorGUI.java:467-535 | foreign windows untouched; an empty slot changes nothing; otherwise the state is created and the action for the slot and material runs, leaving the specified registry and screen |
| PluginMain.ToLower | src/main/java/com/resourcemonitor/Main.java:157 | lower-casing keeps the length |
| PluginMain.ToLowerIdempotent | src/main/java/com/resourcemonitor/Main.java:157 | lower-casing twice is lower-casing once |
| PluginMain.CharsEqualIgnoreCaseIffLower | src/main/java/com/resourcemonitor/Main.java:65-66 | two characters are equal ignoring case exactly when their lower cases are equal |
| PluginMain.EqualsIgnoreCaseIffLower | src/main/java/com/resourcemonitor/Main.java:65-66 | two strings are equal ignoring case exactly when their lower-cased forms are equal |
| PluginMain.HotkeyIffWordIgnoringCase | src/main/java/com/resourcemonitor/Main.java:157-161 | the hotkey fires exactly when the whole message equals "f3r", "/f3r", "rmtoggle" or "overlay" ignoring case |
| PluginMain.IsHotkey | src/main/java/com/resourcemonitor/Main.java:157-161 | a message that fires the hotkey has the length of one of the four words: 3, 4, 7 or 8 characters |
| PluginMain.HotkeyExamples | src/main/java/com/resourcemonitor/Main.java:157-161 | example vectors, not a general property: upper- and mixed-case words fire; a word with more text after it, a shorter prefix and the empty message do not |
| PluginMain.MonitorCommandIffLowerName | src/main/java/com/resourcemonitor/Main.java:65-66 | the command is ours exactly when its lower-cased name is "resourcemonitor" or "rm" |
| PluginMain.IsMonitorCommand | src/main/java/com/resourcemonitor/Main.java:65-66 | an accepted command name has two or fifteen characters and starts with r in either case |
| PluginMain.CommandEffect | src/main/java/com/resourcemonitor/Main.java:74-90 | the command never touches tasks, keeps every existing window state and welcome flag, and after a permitted player command the player has a state and has seen the welcome |
| PluginMain.WelcomeShownAtMostOnce | src/main/java/com/resourcemonitor/Main.java:78-87 | after a permitted command the player has seen the welcome, and a second command adds no welcome |
| PluginMain.DeniedCommandChangesNothing | src/main/java/com/resourcemonitor/Main.java:64-71 | a command that is not ours, lacks the permission or comes from the console leaves the registry unchanged |
| PluginMain.CommandKeepsInv | src/main/java/com/resourcemonitor/Main.java:74-90 | the command keeps the registry invariant, and a permitted player command leaves the player with a state |
| PluginMain.ResourceMonitorPlugin.constructor | src/main/java/com/resourcemonitor/Main.java:29-33 | enabling the plugin creates a fresh, empty controller |
| PluginMain.ResourceMonitorPlugin.OnPlayerChat | src/main/java/com/resourcemonitor/Main.java:156-183 | the message is cancelled exactly when it is a hotkey; a hotkey switches the overlay off when active and on otherwise; any other message changes nothing |
| PluginMain.ResourceMonitorPlugin.OnCommand | src/main/java/com/resourcemonitor/Main.java:64-126 | handled exactly when the name is ours; the welcome is shown exactly on a permitted player's first command; a window opens exactly for a permitted player, and it is the window openGUI shows |

## Left out

- Presentation is not modelled. This covers item names, lore, chat colours as strings, titles, the action bar and every `sendMessage`. A slot holds an abstract item that carries its material, and a colour is a `Band`.
- Readings are not modelled: processor load, memory, players, chunks, entities and the operating-system data. They come from system calls. The tiles that show them are abstract, and the colour functions take the reading as a parameter.
- `formatBytes`, `estimatePluginCpuUsage`, `estimatePluginMemoryUsage` and `getPluginLoadTime` are not modelled. They rely on floating-point logarithms and powers, and on random numbers.
- The scheduler is not modelled. This covers the task periods and start delays, the two-tick delay before `cycleWindowSize` reopens the window (`Monitor.ResourceMonitor.CycleWindowSize` reopens at once), and the hop to the main thread in `onPlayerChat` and in the auto-refresh tick. A tick is an explicit method call. It takes whether the player is online and which window is open as parameters.
- Monitor.ResourceMonitor.AutoRefreshTick: the tile rewrite is modelled as its list of slots and tiles, so a top inventory that is missing is not modelled.
- Monitor.ResourceMonitor.ToggleAutoRefresh: the redrawn button is returned as a value, so a top inventory that is missing is not modelled.
- The window title is abstracted to a `View`. `onInventoryClick` and the auto-refresh task tell the windows apart by substrings of the title; a title carrying more than one of the markers is not modelled.
- `onInventoryDrag` is not modelled. It only cancels drags on the plugin's windows and changes no state.
- `isDragging` is not modelled: it is never read or written. `currentView` is never reassigned and is a constant `"main"`.
- The console branch of `onCommand` is not modelled beyond returning true. It only prints a text report.
- `onEnable` is modelled only as creating the controller. Its branding logs, `onDisable` and the empty `onPlayerSneak` are left out.
- `getGreenMaterial` and `getRedMaterial` are taken to give lime and red wool. Their fallbacks for old server versions go through library lookups.
- Case folding covers ASCII letters only: `PluginMain.ToLower`, `PluginMain.EqualsIgnoreCase` and `PluginMain.IsMonitorCommand`.
  - The four hotkey words have no letter that a non-ASCII character lowers onto.
  - Java's `equalsIgnoreCase` also folds the dotless ı and the long ſ onto `i` and `s`. So a command name spelt with them is accepted by Java but not by the model.
- The `try`/`catch` around the hotkey toggle is left out, because nothing in the modelled toggle throws.
- Widgets.ShortDescription: lengths are counted in Unicode scalar values, not in Java's UTF-16 code units. A description with characters outside the Basic Multilingual Plane is cut at a different place or not at all, and the model never splits a surrogate pair as `substring(0, 37)` can.
- Doubles are modelled as exact reals in `Bands`, `Widgets.TruncateTowardZero`, `Widgets.DoubleToInt` and `Widgets.FilledCount`. Rounding, NaN and the infinities are not modelled; Java's `(int)` of NaN is 0. The readings themselves are parameters, so nothing else in the model depends on this.
- Players are identified by a natural number instead of a UUID, and the player objects themselves are not modelled.
