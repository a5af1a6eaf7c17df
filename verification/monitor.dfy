/**
 * ResourceMonitorGUI's mutable core: the window states and the repeating
 * tasks of every player, kept in four maps, and the transitions that the
 * click handler, the hotkey and the command run on them.
 *
 * A task is a handle with a `cancelled` flag; the scheduler is not
 * modelled, and a tick is a method called on a live handle. An overlay task
 * keeps the WindowState object it was started with, as the Java closure
 * does, so it may outlive that state's removal from the map.
 *
 * Every transition is proved to follow its function in SessionModel, read
 * through Abstract(), and to keep Valid(): in particular a player never has
 * two live tasks of one kind.
 */
module Monitor {
  import opened Wrappers
  import opened Widgets
  import opened Layout
  import SM = SessionModel

  type PlayerId = SM.PlayerId

  /** A player's window state. The ghost owner records the player it was created for. */
  class WindowState {
    ghost const owner: PlayerId
    var isMinimized: bool
    var isOverlayMode: bool
    var windowSize: int
    /** Set to "main" by the constructor and never reassigned. */
    const currentView: string

    constructor (ghost owner: PlayerId)
      ensures this.owner == owner
      ensures !isMinimized && !isOverlayMode && windowSize == DefaultSize && currentView == "main"
    {
      this.owner := owner;
      isMinimized := false;
      isOverlayMode := false;
      windowSize := DefaultSize;
      currentView := "main";
    }
  }

  datatype Feature = AutoRefresh | Overlay

  /** A repeating task; an overlay task holds the window state it was started with. */
  class Task {
    const player: PlayerId
    const feature: Feature
    const state: WindowState?
    var cancelled: bool

    constructor (player: PlayerId, feature: Feature, state: WindowState?)
      ensures this.player == player && this.feature == feature && this.state == state
      ensures !cancelled
    {
      this.player := player;
      this.feature := feature;
      this.state := state;
      cancelled := false;
    }

    /** BukkitRunnable.cancel: the task runs no more. */
    method Cancel()
      modifies this
      ensures cancelled
    {
      cancelled := true;
    }
  }

  /** What a tick of an auto-refresh task did. */
  datatype TickOutcome = Stopped | Idle | Refreshed(tiles: seq<(int, Item)>)

  class ResourceMonitor {
    var windowStates: map<PlayerId, WindowState>
    var autoRefreshTasks: map<PlayerId, Task>
    var overlayTasks: map<PlayerId, Task>
    var welcomeShown: map<PlayerId, bool>
    /** Every window state and every task ever created. */
    ghost var states: set<WindowState>
    ghost var tasks: set<Task>
    /** The fields of each player's window state, as values. */
    ghost var sessions: map<PlayerId, SM.Session>

    // The parts of the invariant take the maps as parameters, so that a
    // transition that leaves a map alone keeps the parts built on it.

    /** Each window state is stored under the player it was created for. */
    static ghost predicate StatesOwned(ws: map<PlayerId, WindowState>, states: set<WindowState>)
    {
      forall q | q in ws :: ws[q] in states && ws[q].owner == q
    }

    /** `sessions` holds the fields of the stored window states. */
    static ghost predicate Mirrors(ws: map<PlayerId, WindowState>, sessions: map<PlayerId, SM.Session>, states: set<WindowState>)
      requires StatesOwned(ws, states)
      reads states
    {
      && sessions.Keys == ws.Keys
      && forall q | q in ws :: sessions[q] == SM.Session(ws[q].isMinimized, ws[q].isOverlayMode, ws[q].windowSize)
    }

    /** Each entry of a task map is a known task of that feature, for the player it is stored under. */
    static ghost predicate Entries(m: map<PlayerId, Task>, f: Feature, tasks: set<Task>)
    {
      forall q | q in m :: m[q] in tasks && m[q].player == q && m[q].feature == f
    }

    /** The task is the one its player's entry of its feature's map holds. */
    static ghost predicate RegisteredIn(t: Task, auto: map<PlayerId, Task>, over: map<PlayerId, Task>)
    {
      match t.feature
      case AutoRefresh => t.player in auto && auto[t.player] == t
      case Overlay => t.player in over && over[t.player] == t
    }

    /** A task runs exactly while it is registered. */
    static ghost predicate LiveIffRegistered(tasks: set<Task>, auto: map<PlayerId, Task>, over: map<PlayerId, Task>)
      reads tasks
    {
      forall t | t in tasks :: t.cancelled <==> !RegisteredIn(t, auto, over)
    }

    /** An overlay task holds a window state of its own player. */
    static ghost predicate Captures(tasks: set<Task>, states: set<WindowState>)
    {
      forall t | t in tasks && t.feature == Overlay :: t.state != null && t.state in states && t.state.owner == t.player
    }

    /** A live overlay task sees its state in overlay mode. */
    static ghost predicate CapturedInOverlayMode(tasks: set<Task>, states: set<WindowState>)
      requires Captures(tasks, states)
      reads tasks, states
    {
      forall t | t in tasks && t.feature == Overlay && !t.cancelled :: t.state.isOverlayMode
    }

    /**
     * The object invariant. Its heart is LiveIffRegistered: a task is live
     * exactly when it is the registered one, so no player ever has two live
     * tasks of one kind. Besides, sizes stay among the four valid ones.
     */
    ghost predicate Valid()
      reads this, states, tasks
    {
      && StatesOwned(windowStates, states)
      && Mirrors(windowStates, sessions, states)
      && (forall q | q in sessions :: ValidSize(sessions[q].windowSize))
      && Entries(autoRefreshTasks, AutoRefresh, tasks)
      && Entries(overlayTasks, Overlay, tasks)
      && LiveIffRegistered(tasks, autoRefreshTasks, overlayTasks)
      && Captures(tasks, states)
      && CapturedInOverlayMode(tasks, states)
    }

    /** The registry the four maps stand for. */
    ghost function Abstract(): SM.Registry
      reads this
    {
      SM.Registry(sessions, autoRefreshTasks.Keys, overlayTasks.Keys, set q | q in welcomeShown && welcomeShown[q])
    }

    /** The objects a transition for player p may change. */
    function StateOf(p: PlayerId): set<object>
      reads this
    {
      if p in windowStates then {windowStates[p]} else {}
    }

    function AutoRefreshTaskOf(p: PlayerId): set<object>
      reads this
    {
      if p in autoRefreshTasks then {autoRefreshTasks[p]} else {}
    }

    function OverlayTaskOf(p: PlayerId): set<object>
      reads this
    {
      if p in overlayTasks then {overlayTasks[p]} else {}
    }

    /** Two live tasks of one player and feature are the same task. */
    lemma AtMostOneLiveTask(t1: Task, t2: Task)
      requires Valid() && t1 in tasks && t2 in tasks
      requires !t1.cancelled && !t2.cancelled && t1.player == t2.player && t1.feature == t2.feature
      ensures t1 == t2
    {
      assert RegisteredIn(t1, autoRefreshTasks, overlayTasks);
      assert RegisteredIn(t2, autoRefreshTasks, overlayTasks);
    }

    /** The registry of a valid object has valid sizes. */
    lemma AbstractSizesValid()
      requires Valid()
      ensures SM.SizesValid(Abstract())
    {
    }

    constructor ()
      ensures Valid() && Abstract() == SM.EmptyRegistry
      ensures states == {} && tasks == {}
    {
      windowStates, autoRefreshTasks, overlayTasks, welcomeShown := map[], map[], map[], map[];
      states, tasks, sessions := {}, {}, map[];
    }

    // ---------------------------------------------------------------------
    // Single steps: each changes one thing and keeps the invariant
    // ---------------------------------------------------------------------

    /** windowStates.computeIfAbsent(player, k -> new WindowState()). */
    method GetOrCreateState(p: PlayerId) returns (s: WindowState)
      requires Valid()
      modifies this
      ensures Valid()
      ensures Abstract() == SM.GetOrCreate(old(Abstract()), p)
      ensures p in windowStates && s == windowStates[p]
      ensures p in old(windowStates) ==> s == old(windowStates[p]) && windowStates == old(windowStates)
      ensures p !in old(windowStates) ==> fresh(s) && windowStates == old(windowStates)[p := s]
      ensures autoRefreshTasks == old(autoRefreshTasks) && overlayTasks == old(overlayTasks)
      ensures welcomeShown == old(welcomeShown) && tasks == old(tasks) && old(states) <= states
    {
      if p in windowStates {
        s := windowStates[p];
      } else {
        s := new WindowState(p);
        windowStates := windowStates[p := s];
        states := states + {s};
        sessions := sessions[p := SM.DefaultSession];
      }
    }

    /** state.isMinimized = b, on a player who has a state. */
    method SetMinimized(p: PlayerId, b: bool)
      requires Valid() && p in windowStates
      modifies this, windowStates[p]
      ensures Valid()
      ensures Abstract() == SM.SetMinimized(old(Abstract()), p, b)
      ensures windowStates == old(windowStates) && autoRefreshTasks == old(autoRefreshTasks) && overlayTasks == old(overlayTasks)
      ensures welcomeShown == old(welcomeShown) && states == old(states) && tasks == old(tasks)
    {
      var w := windowStates[p];
      w.isMinimized := b;
      sessions := sessions[p := sessions[p].(minimized := b)];
      forall q | q in windowStates && q != p
        ensures sessions[q] == SM.Session(windowStates[q].isMinimized, windowStates[q].isOverlayMode, windowStates[q].windowSize)
      {
        assert windowStates[q] != w by { assert windowStates[q].owner == q; }
      }
    }

    /** state.windowSize = n, on a player who has a state. */
    method SetWindowSize(p: PlayerId, n: int)
      requires Valid() && p in windowStates && ValidSize(n)
      modifies this, windowStates[p]
      ensures Valid()
      ensures Abstract() == SM.SetWindowSize(old(Abstract()), p, n)
      ensures windowStates == old(windowStates) && autoRefreshTasks == old(autoRefreshTasks) && overlayTasks == old(overlayTasks)
      ensures welcomeShown == old(welcomeShown) && states == old(states) && tasks == old(tasks)
    {
      var w := windowStates[p];
      w.windowSize := n;
      sessions := sessions[p := sessions[p].(windowSize := n)];
      forall q | q in windowStates && q != p
        ensures sessions[q] == SM.Session(windowStates[q].isMinimized, windowStates[q].isOverlayMode, windowStates[q].windowSize)
      {
        assert windowStates[q] != w by { assert windowStates[q].owner == q; }
      }
    }

    /**
     * state.isOverlayMode = b, on a player who has a state. Switching it
     * off needs the player's overlay task gone first.
     */
    method SetOverlayMode(p: PlayerId, b: bool)
      requires Valid() && p in windowStates && (b || p !in overlayTasks)
      modifies this, windowStates[p]
      ensures Valid()
      ensures Abstract() == SM.SetOverlayMode(old(Abstract()), p, b)
      ensures windowStates == old(windowStates) && autoRefreshTasks == old(autoRefreshTasks) && overlayTasks == old(overlayTasks)
      ensures welcomeShown == old(welcomeShown) && states == old(states) && tasks == old(tasks)
    {
      var w := windowStates[p];
      w.isOverlayMode := b;
      sessions := sessions[p := sessions[p].(overlayMode := b)];
      forall q | q in windowStates && q != p
        ensures sessions[q] == SM.Session(windowStates[q].isMinimized, windowStates[q].isOverlayMode, windowStates[q].windowSize)
      {
        assert windowStates[q] != w by { assert windowStates[q].owner == q; }
      }
      forall t | t in tasks && t.feature == Overlay && !t.cancelled
        ensures t.state.isOverlayMode
      {
        if !b {
          assert t.state.owner != p by { assert RegisteredIn(t, autoRefreshTasks, overlayTasks); }
        }
      }
    }

    /** The overlay task of p, if any, cancelled and removed. */
    method CancelOverlayTask(p: PlayerId)
      requires Valid()
      modifies this, OverlayTaskOf(p)
      ensures Valid()
      ensures Abstract() == SM.DropOverlayTask(old(Abstract()), p)
      ensures p in old(overlayTasks) ==> old(overlayTasks[p]).cancelled
      ensures overlayTasks == old(overlayTasks) - {p}
      ensures windowStates == old(windowStates) && autoRefreshTasks == old(autoRefreshTasks)
      ensures welcomeShown == old(welcomeShown) && states == old(states) && tasks == old(tasks)
    {
      if p in overlayTasks {
        overlayTasks[p].Cancel();
        overlayTasks := overlayTasks - {p};
      }
    }

    /** The auto-refresh task of p, if any, cancelled and removed. */
    method CancelAutoRefreshTask(p: PlayerId)
      requires Valid()
      modifies this, AutoRefreshTaskOf(p)
      ensures Valid()
      ensures Abstract() == SM.DropAutoRefreshTask(old(Abstract()), p)
      ensures p in old(autoRefreshTasks) ==> old(autoRefreshTasks[p]).cancelled
      ensures autoRefreshTasks == old(autoRefreshTasks) - {p}
      ensures windowStates == old(windowStates) && overlayTasks == old(overlayTasks)
      ensures welcomeShown == old(welcomeShown) && states == old(states) && tasks == old(tasks)
    {
      if p in autoRefreshTasks {
        autoRefreshTasks[p].Cancel();
        autoRefreshTasks := autoRefreshTasks - {p};
      }
    }

    /** overlayTasks.put(player, task) for a new task holding the player's state. */
    method RegisterOverlayTask(p: PlayerId) returns (t: Task)
      requires Valid() && p in windowStates && windowStates[p].isOverlayMode && p !in overlayTasks
      modifies this
      ensures Valid()
      ensures Abstract() == SM.AddOverlayTask(old(Abstract()), p)
      ensures fresh(t) && !t.cancelled && t.state == windowStates[p]
      ensures overlayTasks == old(overlayTasks)[p := t]
      ensures windowStates == old(windowStates) && autoRefreshTasks == old(autoRefreshTasks)
      ensures welcomeShown == old(welcomeShown) && states == old(states) && tasks == old(tasks) + {t}
    {
      t := new Task(p, Overlay, windowStates[p]);
      tasks := tasks + {t};
      overlayTasks := overlayTasks[p := t];
      forall u | u in tasks
        ensures u.cancelled <==> !RegisteredIn(u, autoRefreshTasks, overlayTasks)
      {
        if u != t {
          assert RegisteredIn(u, autoRefreshTasks, overlayTasks) == RegisteredIn(u, autoRefreshTasks, old(overlayTasks));
        }
      }
    }

    /** autoRefreshTasks.put(player, task) for a new task. */
    method RegisterAutoRefreshTask(p: PlayerId) returns (t: Task)
      requires Valid() && p !in autoRefreshTasks
      modifies this
      ensures Valid()
      ensures Abstract() == SM.AddAutoRefreshTask(old(Abstract()), p)
      ensures fresh(t) && !t.cancelled
      ensures autoRefreshTasks == old(autoRefreshTasks)[p := t]
      ensures windowStates == old(windowStates) && overlayTasks == old(overlayTasks)
      ensures welcomeShown == old(welcomeShown) && states == old(states) && tasks == old(tasks) + {t}
    {
      t := new Task(p, AutoRefresh, null);
      tasks := tasks + {t};
      autoRefreshTasks := autoRefreshTasks[p := t];
      forall u | u in tasks
        ensures u.cancelled <==> !RegisteredIn(u, autoRefreshTasks, overlayTasks)
      {
        if u != t {
          assert RegisteredIn(u, autoRefreshTasks, overlayTasks) == RegisteredIn(u, old(autoRefreshTasks), overlayTasks);
        }
      }
    }

    /** windowStates.remove(player); an overlay task may still hold the removed state. */
    method RemoveState(p: PlayerId)
      requires Valid()
      modifies this
      ensures Valid()
      ensures Abstract() == SM.DropSession(old(Abstract()), p)
      ensures windowStates == old(windowStates) - {p}
      ensures autoRefreshTasks == old(autoRefreshTasks) && overlayTasks == old(overlayTasks)
      ensures welcomeShown == old(welcomeShown) && states == old(states) && tasks == old(tasks)
    {
      windowStates := windowStates - {p};
      sessions := sessions - {p};
    }

    // ---------------------------------------------------------------------
    // The transitions of ResourceMonitorGUI
    // ---------------------------------------------------------------------

    /** isOverlayActive: a window state exists and is in overlay mode. */
    function IsOverlayActive(p: PlayerId): (active: bool)
      requires Valid()
      reads this, states, tasks
      ensures active == SM.IsOverlayActive(Abstract(), p)
    {
      p in windowStates && windowStates[p].isOverlayMode
    }

    /** hasSeenWelcome: welcomeShown.getOrDefault(player, false). */
    function HasSeenWelcome(p: PlayerId): (seen: bool)
      reads this
      ensures seen == SM.HasSeenWelcome(Abstract(), p)
    {
      p in welcomeShown && welcomeShown[p]
    }

    /** markWelcomeSeen. */
    method MarkWelcomeSeen(p: PlayerId)
      requires Valid()
      modifies this
      ensures Valid()
      ensures Abstract() == SM.MarkWelcomeSeen(old(Abstract()), p)
      ensures windowStates == old(windowStates) && autoRefreshTasks == old(autoRefreshTasks)
      ensures overlayTasks == old(overlayTasks) && states == old(states) && tasks == old(tasks)
    {
      welcomeShown := welcomeShown[p := true];
    }

    /**
     * startOverlay: overlay mode on, any earlier overlay task of the player
     * cancelled, and a new one holding the player's state registered.
     */
    method StartOverlay(p: PlayerId)
      requires Valid()
      modifies this, StateOf(p), OverlayTaskOf(p)
      ensures Valid()
      ensures Abstract() == SM.StartOverlay(old(Abstract()), p)
      ensures p in old(overlayTasks) ==> old(overlayTasks[p]).cancelled
      ensures p in windowStates && p in overlayTasks && fresh(overlayTasks[p])
      ensures !overlayTasks[p].cancelled && overlayTasks[p].state == windowStates[p]
      ensures forall q | q in overlayTasks && q != p :: q in old(overlayTasks) && overlayTasks[q] == old(overlayTasks[q])
      ensures autoRefreshTasks == old(autoRefreshTasks) && welcomeShown == old(welcomeShown)
      ensures old(states) <= states && old(tasks) <= tasks
    {
      var state := GetOrCreateState(p);
      SetOverlayMode(p, true);
      CancelOverlayTask(p);
      var task := RegisterOverlayTask(p);
    }

    /**
     * stopOverlay: overlay mode off if the player has a state (none is
     * created), and the overlay task, if any, cancelled and removed. The
     * task goes first here: the two writes touch different objects and
     * nothing runs between them.
     */
    method StopOverlay(p: PlayerId)
      requires Valid()
      modifies this, StateOf(p), OverlayTaskOf(p)
      ensures Valid()
      ensures Abstract() == SM.StopOverlay(old(Abstract()), p)
      ensures p in old(overlayTasks) ==> old(overlayTasks[p]).cancelled
      ensures overlayTasks == old(overlayTasks) - {p}
      ensures windowStates == old(windowStates) && autoRefreshTasks == old(autoRefreshTasks)
      ensures welcomeShown == old(welcomeShown) && states == old(states) && tasks == old(tasks)
    {
      CancelOverlayTask(p);
      if p in windowStates {
        SetOverlayMode(p, false);
      }
    }

    /** toggleOverlayMode: the overlay button of the main window. Returns whether the inventory was closed. */
    method ToggleOverlayMode(p: PlayerId) returns (closed: bool)
      requires Valid()
      modifies this, StateOf(p), OverlayTaskOf(p)
      ensures Valid()
      ensures Abstract() == SM.ToggleOverlayMode(old(Abstract()), p)
      ensures closed == !SM.SessionOf(old(Abstract()), p).overlayMode
      ensures p in old(overlayTasks) ==> old(overlayTasks[p]).cancelled
      ensures autoRefreshTasks == old(autoRefreshTasks) && welcomeShown == old(welcomeShown)
      ensures old(states) <= states && old(tasks) <= tasks
    {
      var state := GetOrCreateState(p);
      if state.isOverlayMode {
        StopOverlay(p);
        closed := false;
      } else {
        StartOverlay(p);
        closed := true;
      }
    }

    /**
     * A tick of a live overlay task: when the player is offline or the state
     * it holds has left overlay mode, it cancels itself and removes its entry;
     * otherwise it shows the overlay. Under the invariant the mode check never
     * fires, so the task shows exactly while the player is online.
     */
    method OverlayTick(t: Task, online: bool) returns (shown: bool)
      requires Valid() && t in tasks && t.feature == Overlay && !t.cancelled
      modifies this, t
      ensures Valid()
      ensures shown == online
      ensures t.cancelled == !online
      ensures Abstract() == SM.OverlayTick(old(Abstract()), t.player, online)
      ensures windowStates == old(windowStates) && autoRefreshTasks == old(autoRefreshTasks)
      ensures overlayTasks == if online then old(overlayTasks) else old(overlayTasks) - {t.player}
      ensures welcomeShown == old(welcomeShown) && states == old(states) && tasks == old(tasks)
    {
      assert RegisteredIn(t, autoRefreshTasks, overlayTasks);
      if !online || !t.state.isOverlayMode {
        // this.cancel() and overlayTasks.remove(playerId): t is the registered task
        CancelOverlayTask(t.player);
        return false;
      }
      shown := true;
    }

    /** startAutoRefresh: any earlier task of the player cancelled, a new one registered. */
    method StartAutoRefresh(p: PlayerId)
      requires Valid()
      modifies this, AutoRefreshTaskOf(p)
      ensures Valid()
      ensures Abstract() == SM.StartAutoRefresh(old(Abstract()), p)
      ensures p in old(autoRefreshTasks) ==> old(autoRefreshTasks[p]).cancelled
      ensures p in autoRefreshTasks && fresh(autoRefreshTasks[p]) && !autoRefreshTasks[p].cancelled
      ensures forall q | q in autoRefreshTasks && q != p :: q in old(autoRefreshTasks) && autoRefreshTasks[q] == old(autoRefreshTasks[q])
      ensures windowStates == old(windowStates) && overlayTasks == old(overlayTasks)
      ensures welcomeShown == old(welcomeShown) && states == old(states) && old(tasks) <= tasks
    {
      CancelAutoRefreshTask(p);
      var task := RegisterAutoRefreshTask(p);
    }

    /**
     * toggleAutoRefresh: a present task is cancelled and removed, an absent
     * one started; the button then redrawn in slot 6 shows the new setting.
     */
    method ToggleAutoRefresh(p: PlayerId) returns (button: Item)
      requires Valid()
      modifies this, AutoRefreshTaskOf(p)
      ensures Valid()
      ensures Abstract() == SM.ToggleAutoRefresh(old(Abstract()), p)
      ensures p in old(autoRefreshTasks) ==> old(autoRefreshTasks[p]).cancelled
      ensures button == AutoRefreshButton(p in autoRefreshTasks) && button.on == (p !in old(autoRefreshTasks))
      ensures windowStates == old(windowStates) && overlayTasks == old(overlayTasks)
      ensures welcomeShown == old(welcomeShown) && states == old(states) && old(tasks) <= tasks
    {
      if p in autoRefreshTasks {
        CancelAutoRefreshTask(p);
      } else {
        StartAutoRefresh(p);
      }
      // updateAutoRefreshButton
      button := AutoRefreshButton(p in autoRefreshTasks);
    }

    /**
     * A tick of a live auto-refresh task: offline, it cancels itself and
     * removes its entry; online with the main window open, updateGUIItems
     * rewrites the data tiles for the player's window size, or does nothing
     * for a player without a state; otherwise the tick does nothing and the
     * task keeps running.
     */
    method AutoRefreshTick(t: Task, online: bool, view: View) returns (outcome: TickOutcome)
      requires Valid() && t in tasks && t.feature == AutoRefresh && !t.cancelled
      modifies this, t
      ensures Valid()
      ensures Abstract() == SM.AutoRefreshTick(old(Abstract()), t.player, online)
      ensures t.cancelled == !online
      ensures outcome ==
        if !online then Stopped
        else if view == MainView && t.player in Abstract().sessions then Refreshed(RefreshedTiles(Abstract().sessions[t.player].windowSize))
        else Idle
      ensures windowStates == old(windowStates) && overlayTasks == old(overlayTasks)
      ensures autoRefreshTasks == if online then old(autoRefreshTasks) else old(autoRefreshTasks) - {t.player}
      ensures welcomeShown == old(welcomeShown) && states == old(states) && tasks == old(tasks)
    {
      assert RegisteredIn(t, autoRefreshTasks, overlayTasks);
      if !online {
        CancelAutoRefreshTask(t.player);
        return Stopped;
      }
      if view == MainView && t.player in windowStates {
        outcome := Refreshed(RefreshedTiles(windowStates[t.player].windowSize));
      } else {
        outcome := Idle;
      }
    }

    /** closeWindow: the auto-refresh task cancelled and removed, the window state removed. */
    method CloseWindow(p: PlayerId)
      requires Valid()
      modifies this, AutoRefreshTaskOf(p)
      ensures Valid()
      ensures Abstract() == SM.CloseWindow(old(Abstract()), p)
      ensures p in old(autoRefreshTasks) ==> old(autoRefreshTasks[p]).cancelled
      ensures windowStates == old(windowStates) - {p} && autoRefreshTasks == old(autoRefreshTasks) - {p}
      ensures overlayTasks == old(overlayTasks) && welcomeShown == old(welcomeShown)
      ensures states == old(states) && tasks == old(tasks)
    {
      CancelAutoRefreshTask(p);
      RemoveState(p);
    }

    /** openGUI: the minimized window, or the main window for the player's size. */
    method OpenGUI(p: PlayerId) returns (w: Window)
      requires Valid()
      modifies this
      ensures Valid()
      ensures Abstract() == SM.GetOrCreate(old(Abstract()), p)
      ensures SM.SizesValid(Abstract()) && p in Abstract().sessions && w == SM.OpenedWindow(Abstract(), p)
      ensures autoRefreshTasks == old(autoRefreshTasks) && overlayTasks == old(overlayTasks)
      ensures welcomeShown == old(welcomeShown) && tasks == old(tasks) && old(states) <= states
    {
      var state := GetOrCreateState(p);
      AbstractSizesValid();
      if state.isMinimized {
        w := Window(MinimizedView, MinimizedSlots());
      } else {
        var inv := BuildMainWindow(state.windowSize, p in autoRefreshTasks);
        w := Window(MainView, inv[..]);
      }
    }

    /** cycleWindowSize: the next size, then the window opened again. */
    method CycleWindowSize(p: PlayerId) returns (w: Window)
      requires Valid()
      modifies this, StateOf(p)
      ensures Valid()
      ensures Abstract() == SM.Resize(old(Abstract()), p)
      ensures SM.SizesValid(Abstract()) && p in Abstract().sessions && w == SM.OpenedWindow(Abstract(), p)
      ensures autoRefreshTasks == old(autoRefreshTasks) && overlayTasks == old(overlayTasks)
      ensures welcomeShown == old(welcomeShown) && tasks == old(tasks) && old(states) <= states
    {
      ghost var r0 := Abstract();
      var state := GetOrCreateState(p);
      ghost var r1 := Abstract();
      assert state.windowSize == SM.SessionOf(r1, p).windowSize;
      SetWindowSize(p, NextWindowSize(state.windowSize));
      assert Abstract() == SM.Resize(r0, p);
      SM.GetOrCreateExisting(Abstract(), p);
      w := OpenGUI(p);
    }

    /** The restore and minimize buttons: the flag set, then the window opened again. */
    method MinimizeAndReopen(p: PlayerId, minimized: bool) returns (w: Window)
      requires Valid() && p in windowStates
      modifies this, StateOf(p)
      ensures Valid()
      ensures Abstract() == SM.SetMinimized(old(Abstract()), p, minimized)
      ensures SM.SizesValid(Abstract()) && p in Abstract().sessions && w == SM.OpenedWindow(Abstract(), p)
      ensures w.view == (if minimized then MinimizedView else MainView)
      ensures autoRefreshTasks == old(autoRefreshTasks) && overlayTasks == old(overlayTasks)
      ensures welcomeShown == old(welcomeShown) && old(states) <= states && tasks == old(tasks)
    {
      SetMinimized(p, minimized);
      SM.GetOrCreateExisting(Abstract(), p);
      w := OpenGUI(p);
    }

    /**
     * An action that changes the window state: the restore and minimize
     * buttons set the flag and reopen, resize cycles the size, the refresh
     * button and the back arrow reopen, the plugins tile lists the plugins.
     */
    method RunWindowAction(p: PlayerId, a: Action, plugins: seq<PluginInfo>) returns (screen: SM.Screen)
      requires Valid() && p in windowStates
      requires a in {NoAction, Restore, Minimize, Resize, Reopen, ShowPlugins}
      modifies this, StateOf(p)
      ensures Valid()
      ensures SM.SizesValid(old(Abstract()))
      ensures Abstract() == SM.Click(old(Abstract()), p, a)
      ensures screen == SM.ActionScreen(old(Abstract()), p, a, plugins)
      ensures autoRefreshTasks == old(autoRefreshTasks) && overlayTasks == old(overlayTasks)
      ensures welcomeShown == old(welcomeShown) && old(states) <= states && tasks == old(tasks)
    {
      AbstractSizesValid();
      SM.GetOrCreateExisting(Abstract(), p);
      match a
      case NoAction =>
        screen := SM.Unchanged;
      case Restore =>
        var w := MinimizeAndReopen(p, false);
        screen := SM.Opened(w);
      case Minimize =>
        var w := MinimizeAndReopen(p, true);
        screen := SM.Opened(w);
      case Resize =>
        var w := CycleWindowSize(p);
        screen := SM.Opened(w);
      case Reopen =>
        var w := OpenGUI(p);
        screen := SM.Opened(w);
      case ShowPlugins =>
        var inv := ShowPluginList(plugins);
        screen := SM.Opened(Window(PluginDetailsView, inv[..]));
    }

    /** An action on the tasks: the overlay button, the auto-refresh button, the close buttons. */
    method RunTaskAction(p: PlayerId, a: Action) returns (screen: SM.Screen)
      requires Valid() && p in windowStates
      requires a in {Action.ToggleOverlay, Action.ToggleAutoRefresh, Action.Close}
      modifies this, StateOf(p), OverlayTaskOf(p), AutoRefreshTaskOf(p)
      ensures Valid()
      ensures SM.SizesValid(old(Abstract()))
      ensures Abstract() == SM.Click(old(Abstract()), p, a)
      ensures screen == SM.ActionScreen(old(Abstract()), p, a, [])
      ensures welcomeShown == old(welcomeShown) && old(states) <= states && old(tasks) <= tasks
    {
      AbstractSizesValid();
      SM.GetOrCreateExisting(Abstract(), p);
      match a
      case ToggleOverlay =>
        var closed := ToggleOverlayMode(p);
        screen := if closed then SM.Closed else SM.Unchanged;
      case ToggleAutoRefresh =>
        var button := ToggleAutoRefresh(p);
        screen := SM.ButtonRedrawn(6, button);
      case Close =>
        CloseWindow(p);
        screen := SM.Closed;
    }

    /**
     * onInventoryClick: a click on another inventory is left alone; a click
     * on ours is cancelled, and unless the slot is empty the player's state
     * is created and the action Dispatch picks is run.
     */
    method OnInventoryClick(p: PlayerId, view: View, slot: int, clicked: Option<Material>, plugins: seq<PluginInfo>) returns (screen: SM.Screen)
      requires Valid()
      modifies this, StateOf(p), OverlayTaskOf(p), AutoRefreshTaskOf(p)
      ensures Valid()
      ensures SM.SizesValid(old(Abstract()))
      ensures Abstract() == SM.InventoryClick(old(Abstract()), p, view, slot, clicked)
      ensures screen == SM.ClickScreen(old(Abstract()), p, view, slot, clicked, plugins)
      ensures welcomeShown == old(welcomeShown) && old(states) <= states && old(tasks) <= tasks
    {
      AbstractSizesValid();
      ghost var r0 := Abstract();
      var result := Dispatch(view, slot, clicked);
      if result.NotOurs? {
        return SM.Ignored;
      }
      if clicked.None? {
        return SM.Unchanged;
      }
      var a := result.action;
      var state := GetOrCreateState(p);
      SM.ClickAfterGetOrCreate(r0, p, a, plugins);
      SM.ClickAfterGetOrCreate(r0, p, a, []);
      if a in {Action.ToggleOverlay, Action.ToggleAutoRefresh, Action.Close} {
        screen := RunTaskAction(p, a);
        assert SM.ActionScreen(r0, p, a, []) == SM.ActionScreen(r0, p, a, plugins);
      } else {
        screen := RunWindowAction(p, a, plugins);
      }
    }
  }
}
