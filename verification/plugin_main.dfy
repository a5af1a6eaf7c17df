/**
 * The plugin class: the chat hotkey that toggles the overlay and the
 * /resourcemonitor command with its permission gate and once-only welcome.
 *
 * Case is folded on ASCII letters only; the four hotkey words and the two
 * command names are plain ASCII.
 */
module PluginMain {
  import opened Wrappers
  import opened Layout
  import SM = SessionModel
  import Monitor

  type PlayerId = SM.PlayerId

  // ---------------------------------------------------------------------
  // Case folding
  // ---------------------------------------------------------------------

  function LowerChar(c: char): char
  {
    if 'A' <= c <= 'Z' then (c as int + 32) as char else c
  }

  function UpperChar(c: char): char
  {
    if 'a' <= c <= 'z' then (c as int - 32) as char else c
  }

  /** String.toLowerCase, letter by letter. */
  function ToLower(s: string): (r: string)
    ensures |r| == |s|
  {
    seq(|s|, i requires 0 <= i < |s| => LowerChar(s[i]))
  }

  /** The string whose letters are the lower case of those of s is ToLower(s). */
  lemma ToLowerIs(s: string, t: string)
    requires |t| == |s| && forall i | 0 <= i < |s| :: t[i] == LowerChar(s[i])
    ensures ToLower(s) == t
  {
    assert forall i | 0 <= i < |s| :: ToLower(s)[i] == t[i];
  }

  /** Lower-casing twice is lower-casing once. */
  lemma ToLowerIdempotent(s: string)
    ensures ToLower(ToLower(s)) == ToLower(s)
  {
    assert forall i | 0 <= i < |s| :: ToLower(ToLower(s))[i] == LowerChar(LowerChar(s[i]));
  }

  /** Two characters are equal when case is ignored: equal, equal upper case, or equal lower case of the upper case. */
  predicate CharsEqualIgnoreCase(a: char, b: char)
  {
    a == b || UpperChar(a) == UpperChar(b) || LowerChar(UpperChar(a)) == LowerChar(UpperChar(b))
  }

  /** String.equalsIgnoreCase: same length, and every pair of characters equal ignoring case. */
  predicate EqualsIgnoreCase(a: string, b: string)
  {
    |a| == |b| && forall i | 0 <= i < |a| :: CharsEqualIgnoreCase(a[i], b[i])
  }

  lemma CharsEqualIgnoreCaseIffLower(a: char, b: char)
    ensures CharsEqualIgnoreCase(a, b) <==> LowerChar(a) == LowerChar(b)
  {
  }

  /** Comparing ignoring case is comparing the lower-cased strings. */
  lemma EqualsIgnoreCaseIffLower(a: string, b: string)
    ensures EqualsIgnoreCase(a, b) <==> ToLower(a) == ToLower(b)
  {
    if |a| == |b| {
      forall i | 0 <= i < |a|
        ensures CharsEqualIgnoreCase(a[i], b[i]) <==> ToLower(a)[i] == ToLower(b)[i]
      {
        CharsEqualIgnoreCaseIffLower(a[i], b[i]);
      }
      if ToLower(a) == ToLower(b) {
        forall i | 0 <= i < |a| ensures CharsEqualIgnoreCase(a[i], b[i])
        {
          assert ToLower(a)[i] == ToLower(b)[i];
        }
      }
    }
  }

  // ---------------------------------------------------------------------
  // The hotkey and the command name
  // ---------------------------------------------------------------------

  /** The chat messages that stand in for the F3+R hotkey, lower-cased. */
  const HotkeyWords: set<string> := {"f3r", "/f3r", "rmtoggle", "overlay"}

  /** onPlayerChat fires on a message whose lower-case form is a hotkey word. */
  predicate IsHotkey(message: string): (b: bool)
    ensures b ==> |message| in {3, 4, 7, 8}
  {
    ToLower(message) in HotkeyWords
  }

  /**
   * The hotkey is the message equal, ignoring case, to one of the four
   * words, with nothing before or after it.
   */
  lemma HotkeyIffWordIgnoringCase(message: string)
    ensures IsHotkey(message) <==>
      EqualsIgnoreCase(message, "f3r") || EqualsIgnoreCase(message, "/f3r")
      || EqualsIgnoreCase(message, "rmtoggle") || EqualsIgnoreCase(message, "overlay")
  {
    EqualsIgnoreCaseIffLower(message, "f3r");
    EqualsIgnoreCaseIffLower(message, "/f3r");
    EqualsIgnoreCaseIffLower(message, "rmtoggle");
    EqualsIgnoreCaseIffLower(message, "overlay");
    ToLowerIs("f3r", "f3r");
    ToLowerIs("/f3r", "/f3r");
    ToLowerIs("rmtoggle", "rmtoggle");
    ToLowerIs("overlay", "overlay");
  }

  /** Upper case fires; a word inside a longer message does not. */
  lemma HotkeyExamples()
    ensures IsHotkey("OVERLAY") && IsHotkey("F3R") && IsHotkey("/f3R") && IsHotkey("RmToggle")
    ensures !IsHotkey("overlay please") && !IsHotkey("f3") && !IsHotkey("")
  {
    ToLowerIs("OVERLAY", "overlay");
    ToLowerIs("F3R", "f3r");
    ToLowerIs("/f3R", "/f3r");
    ToLowerIs("RmToggle", "rmtoggle");
  }

  /** The command is ours under either of its names, ignoring case. */
  predicate IsMonitorCommand(name: string): (b: bool)
    ensures b ==> |name| == 2 || |name| == 15
    ensures b ==> name[0] == 'r' || name[0] == 'R'
  {
    EqualsIgnoreCase(name, "resourcemonitor") || EqualsIgnoreCase(name, "rm")
  }

  lemma MonitorCommandIffLowerName(name: string)
    ensures IsMonitorCommand(name) <==> ToLower(name) == "resourcemonitor" || ToLower(name) == "rm"
  {
    EqualsIgnoreCaseIffLower(name, "resourcemonitor");
    EqualsIgnoreCaseIffLower(name, "rm");
  }

  // ---------------------------------------------------------------------
  // The command
  // ---------------------------------------------------------------------

  /** Who ran the command. */
  datatype Sender = PlayerSender(id: PlayerId) | ConsoleSender

  /** A player with the resourcemonitor.use permission ran one of our commands. */
  predicate OpensWindow(sender: Sender, name: string, permitted: bool)
  {
    IsMonitorCommand(name) && permitted && sender.PlayerSender?
  }

  /** The registry after the command: the welcome marked, then the player's state created by openGUI. */
  function CommandEffect(r: SM.Registry, sender: Sender, name: string, permitted: bool): (r': SM.Registry)
    ensures r'.autoRefresh == r.autoRefresh && r'.overlay == r.overlay
    ensures r.sessions.Keys <= r'.sessions.Keys && r.welcomed <= r'.welcomed
    ensures forall q | q in r.sessions :: r'.sessions[q] == r.sessions[q]
    ensures OpensWindow(sender, name, permitted) ==> sender.id in r'.sessions && sender.id in r'.welcomed
  {
    if OpensWindow(sender, name, permitted) then
      SM.GetOrCreate(SM.MarkWelcomeSeen(r, sender.id), sender.id)
    else r
  }

  /** The welcome text is shown on a player's first permitted command only. */
  lemma WelcomeShownAtMostOnce(r: SM.Registry, p: PlayerId, name: string)
    requires OpensWindow(PlayerSender(p), name, true)
    ensures SM.HasSeenWelcome(CommandEffect(r, PlayerSender(p), name, true), p)
    ensures CommandEffect(CommandEffect(r, PlayerSender(p), name, true), PlayerSender(p), name, true).welcomed
      == CommandEffect(r, PlayerSender(p), name, true).welcomed
  {
  }

  /** A command that is not ours, lacks the permission, or comes from the console changes nothing. */
  lemma DeniedCommandChangesNothing(r: SM.Registry, sender: Sender, name: string, permitted: bool)
    requires !permitted || !IsMonitorCommand(name) || sender.ConsoleSender?
    ensures CommandEffect(r, sender, name, permitted) == r
  {
  }

  /** A permitted player command keeps the invariant and leaves the player with a window state. */
  lemma CommandKeepsInv(r: SM.Registry, sender: Sender, name: string, permitted: bool)
    requires SM.Inv(r)
    ensures SM.Inv(CommandEffect(r, sender, name, permitted))
    ensures OpensWindow(sender, name, permitted) ==> sender.id in CommandEffect(r, sender, name, permitted).sessions
  {
  }

  // ---------------------------------------------------------------------
  // The plugin
  // ---------------------------------------------------------------------

  /** The plugin object: it owns the GUI controller and forwards chat and commands to it. */
  class ResourceMonitorPlugin {
    const gui: Monitor.ResourceMonitor

    ghost predicate Valid()
      reads this, gui, gui.states, gui.tasks
    {
      gui.Valid()
    }

    /** onEnable: a fresh controller. */
    constructor ()
      ensures Valid() && fresh(gui) && gui.Abstract() == SM.EmptyRegistry
    {
      gui := new Monitor.ResourceMonitor();
    }

    /**
     * onPlayerChat: a hotkey message is cancelled and toggles the overlay
     * (off when isOverlayActive, on otherwise); any other message is left
     * alone.
     */
    method OnPlayerChat(p: PlayerId, message: string) returns (cancelled: bool)
      requires Valid()
      modifies gui, gui.StateOf(p), gui.OverlayTaskOf(p)
      ensures Valid()
      ensures cancelled == IsHotkey(message)
      ensures gui.Abstract() == if IsHotkey(message) then SM.HotkeyToggle(old(gui.Abstract()), p) else old(gui.Abstract())
    {
      var lower := ToLower(message);
      cancelled := false;
      if lower == "f3r" || lower == "/f3r" || lower == "rmtoggle" || lower == "overlay" {
        cancelled := true;
        if gui.IsOverlayActive(p) {
          gui.StopOverlay(p);
        } else {
          gui.StartOverlay(p);
        }
      }
    }

    /**
     * onCommand: a name that is not ours is declined; without the
     * permission the command is refused; a player sees the welcome on the
     * first use and gets the window every time; the console gets a text
     * report. Returns whether the command was handled, whether the welcome
     * was shown, and the window shown.
     */
    method OnCommand(sender: Sender, name: string, permitted: bool) returns (handled: bool, welcomed: bool, shown: Option<Window>)
      requires Valid()
      modifies gui
      ensures Valid()
      ensures handled == IsMonitorCommand(name)
      ensures welcomed == (OpensWindow(sender, name, permitted) && !SM.HasSeenWelcome(old(gui.Abstract()), sender.id))
      ensures gui.Abstract() == CommandEffect(old(gui.Abstract()), sender, name, permitted)
      ensures SM.SizesValid(gui.Abstract())
      ensures shown.Some? <==> OpensWindow(sender, name, permitted)
      ensures shown.Some? ==> sender.id in gui.Abstract().sessions && shown.value == SM.OpenedWindow(gui.Abstract(), sender.id)
    {
      gui.AbstractSizesValid();
      welcomed, shown := false, None;
      if !IsMonitorCommand(name) {
        return false, false, None;
      }
      handled := true;
      if !permitted {
        return;
      }
      match sender
      case PlayerSender(p) =>
        if !gui.HasSeenWelcome(p) {
          welcomed := true;
          gui.MarkWelcomeSeen(p);
        }
        assert gui.Abstract() == SM.MarkWelcomeSeen(old(gui.Abstract()), p);
        var w := gui.OpenGUI(p);
        shown := Some(w);
      case ConsoleSender =>
    }
  }
}
