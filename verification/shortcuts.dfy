/**
 * Keyboard shortcuts: the key-down handler that fires the first matching shortcut, and the
 * application's global shortcut table.
 */
module Shortcuts {
  import opened Options
  import opened Text
  import CommandPalette

  /** What a shortcut does: navigate to a route, or announce `show-shortcuts-help`. */
  datatype Action = Navigate(route: string) | ShowShortcutsHelp

  /** `ShortcutConfig`; a missing `ctrl`, `meta` or `shift` is `false`. */
  datatype Shortcut = Shortcut(key: string, ctrl: bool, meta: bool, shift: bool, action: Action, description: string)

  /** The parts of a `KeyboardEvent` the handler reads. */
  datatype KeyEvent = KeyEvent(
    key: string, ctrlKey: bool, metaKey: bool, shiftKey: bool, targetTag: string, targetEditable: bool)

  /** Typing in a text input, a text area or an editable element is left alone. */
  predicate TypingTarget(e: KeyEvent) {
    e.targetTag == "INPUT" || e.targetTag == "TEXTAREA" || e.targetEditable
  }

  /**
   * The handler's test: the keys agree ignoring case; a shortcut with `ctrl` needs Ctrl or Meta
   * held, one without accepts any; Shift is held exactly when the shortcut asks for it.  The
   * `meta` flag plays no part.
   */
  predicate Fires(s: Shortcut, e: KeyEvent) {
    && ToLower(e.key) == ToLower(s.key)
    && (s.ctrl ==> e.ctrlKey || e.metaKey)
    && (s.shift <==> e.shiftKey)
  }

  /** The action of the first shortcut in list order that fires. */
  function FirstMatch(shortcuts: seq<Shortcut>, e: KeyEvent): (r: Option<Action>)
    ensures r.None? <==> forall j :: 0 <= j < |shortcuts| ==> !Fires(shortcuts[j], e)
    ensures r.Some? ==> exists j :: 0 <= j < |shortcuts| && Fires(shortcuts[j], e) && r.value == shortcuts[j].action
                                   && forall i :: 0 <= i < j ==> !Fires(shortcuts[i], e)
    decreases |shortcuts|
  {
    if shortcuts == [] then None
    else if Fires(shortcuts[0], e) then Some(shortcuts[0].action)
    else
      var r := FirstMatch(shortcuts[1..], e);
      assert forall j :: 1 <= j < |shortcuts| ==> shortcuts[j] == shortcuts[1..][j - 1];
      if r.Some? then
        var k :| 0 <= k < |shortcuts[1..]| && Fires(shortcuts[1..][k], e) && r.value == shortcuts[1..][k].action
          && forall i :: 0 <= i < k ==> !Fires(shortcuts[1..][i], e);
        assert forall i :: 1 <= i < k + 1 ==> shortcuts[i] == shortcuts[1..][i - 1];
        r
      else r
  }

  /**
   * `handleKeyDown`: nothing while typing; otherwise the shortcuts are tried in order and the
   * first that fires is run, and no other.  Returns the action run.
   */
  method HandleKeyDown(shortcuts: seq<Shortcut>, e: KeyEvent) returns (fired: Option<Action>)
    ensures TypingTarget(e) ==> fired.None?
    ensures !TypingTarget(e) ==> fired == FirstMatch(shortcuts, e)
  {
    if TypingTarget(e) {
      return None;
    }
    var i := 0;
    while i < |shortcuts|
      invariant 0 <= i <= |shortcuts|
      invariant FirstMatch(shortcuts, e) == FirstMatch(shortcuts[i..], e)
    {
      if Fires(shortcuts[i], e) {
        return Some(shortcuts[i].action);
      }
      assert shortcuts[i..][1..] == shortcuts[i + 1..];
      i := i + 1;
    }
    return None;
  }

  /** The `meta` flag of a shortcut changes nothing. */
  lemma MetaFlagIgnored(s: Shortcut, e: KeyEvent, meta: bool)
    ensures Fires(s.(meta := meta), e) == Fires(s, e)
  {
  }

  /** `useGlobalShortcuts`: the table, in order. */
  const GlobalShortcuts: seq<Shortcut> := [
    Shortcut("d", true, false, false, Navigate("/dashboard"), "Go to Dashboard"),
    Shortcut("p", true, false, false, Navigate("/preview"), "Preview CV"),
    Shortcut("s", true, false, true, Navigate("/share"), "Share & Export"),
    Shortcut("a", true, false, false, Navigate("/dashboard/analyze"), "CV Analyzer"),
    Shortcut("n", true, false, false, Navigate("/dashboard/cvs"), "New CV"),
    Shortcut("/", false, false, false, ShowShortcutsHelp, "Show shortcuts")
  ]

  /** A key press outside any text field. */
  function Press(key: string, ctrlKey: bool, shiftKey: bool): KeyEvent {
    KeyEvent(key, ctrlKey, false, shiftKey, "BODY", false)
  }

  /** When entry `j` is the first that fires, its action is the one run. */
  lemma FirstMatchAt(shortcuts: seq<Shortcut>, e: KeyEvent, j: nat)
    requires j < |shortcuts| && Fires(shortcuts[j], e)
    requires forall i :: 0 <= i < j ==> !Fires(shortcuts[i], e)
    ensures FirstMatch(shortcuts, e) == Some(shortcuts[j].action)
  {
    var k :| 0 <= k < |shortcuts| && Fires(shortcuts[k], e) && FirstMatch(shortcuts, e).value == shortcuts[k].action
             && forall i :: 0 <= i < k ==> !Fires(shortcuts[i], e);
    assert k == j;
  }

  /** Single-character keys compare by their lower-cased characters. */
  lemma FiresOnChar(s: Shortcut, e: KeyEvent)
    requires |s.key| == 1 && |e.key| == 1
    ensures Fires(s, e) <==>
      LowerChar(e.key[0]) == LowerChar(s.key[0]) && (s.ctrl ==> e.ctrlKey || e.metaKey) && (s.shift <==> e.shiftKey)
  {
    assert ToLower(e.key) == [LowerChar(e.key[0])];
    assert ToLower(s.key) == [LowerChar(s.key[0])];
  }

  /** Which entries of the table a one-character press fires. */
  lemma TableFires(e: KeyEvent, j: nat)
    requires |e.key| == 1 && j < |GlobalShortcuts|
    ensures var s := GlobalShortcuts[j];
      Fires(s, e) <==> LowerChar(e.key[0]) == s.key[0] && (s.ctrl ==> e.ctrlKey || e.metaKey) && (s.shift <==> e.shiftKey)
  {
    FiresOnChar(GlobalShortcuts[j], e);
  }

  /** `/` has no Ctrl flag, so it opens the help with or without Ctrl held, but not with Shift. */
  lemma SlashShowsHelp(ctrlKey: bool)
    ensures FirstMatch(GlobalShortcuts, Press("/", ctrlKey, false)) == Some(ShowShortcutsHelp)
    ensures FirstMatch(GlobalShortcuts, Press("/", ctrlKey, true)) == None
  {
    var e, f := Press("/", ctrlKey, false), Press("/", ctrlKey, true);
    forall j | 0 <= j < |GlobalShortcuts| ensures (Fires(GlobalShortcuts[j], e) <==> j == 5) && !Fires(GlobalShortcuts[j], f) {
      TableFires(e, j);
      TableFires(f, j);
    }
    FirstMatchAt(GlobalShortcuts, e, 5);
  }

  /** The letter shortcuts ignore case but need Ctrl: Ctrl+D and Ctrl+Shift+D differ, as do D and Ctrl+D. */
  lemma DashboardShortcut()
    ensures FirstMatch(GlobalShortcuts, Press("D", true, false)) == Some(Navigate("/dashboard"))
    ensures FirstMatch(GlobalShortcuts, Press("d", false, false)) == None
    ensures FirstMatch(GlobalShortcuts, Press("d", true, true)) == None
  {
    var e, f, g := Press("D", true, false), Press("d", false, false), Press("d", true, true);
    forall j | 0 <= j < |GlobalShortcuts|
      ensures (Fires(GlobalShortcuts[j], e) <==> j == 0) && !Fires(GlobalShortcuts[j], f) && !Fires(GlobalShortcuts[j], g)
    {
      TableFires(e, j);
      TableFires(f, j);
      TableFires(g, j);
    }
    FirstMatchAt(GlobalShortcuts, e, 0);
  }

  /** A press that fires entry `j` of the table and no other runs that entry's action. */
  lemma OnlyEntryFires(e: KeyEvent, j: nat)
    requires |e.key| == 1 && j < |GlobalShortcuts|
    requires forall i :: 0 <= i < |GlobalShortcuts| ==> (LowerChar(e.key[0]) == GlobalShortcuts[i].key[0] <==> i == j)
    requires GlobalShortcuts[j].shift == e.shiftKey && e.ctrlKey
    ensures FirstMatch(GlobalShortcuts, e) == Some(GlobalShortcuts[j].action)
  {
    forall i | 0 <= i < j ensures !Fires(GlobalShortcuts[i], e) {
      TableFires(e, i);
    }
    TableFires(e, j);
    FirstMatchAt(GlobalShortcuts, e, j);
  }

  /** Ctrl+D runs entry 0. */
  lemma HintD()
    ensures FirstMatch(GlobalShortcuts, Press("d", true, false)) == Some(GlobalShortcuts[0].action)
  {
    OnlyEntryFires(Press("d", true, false), 0);
  }

  /** Ctrl+P runs entry 1. */
  lemma HintP()
    ensures FirstMatch(GlobalShortcuts, Press("p", true, false)) == Some(GlobalShortcuts[1].action)
  {
    OnlyEntryFires(Press("p", true, false), 1);
  }

  /** Ctrl+Shift+S runs entry 2. */
  lemma HintS()
    ensures FirstMatch(GlobalShortcuts, Press("s", true, true)) == Some(GlobalShortcuts[2].action)
  {
    OnlyEntryFires(Press("s", true, true), 2);
  }

  /** Ctrl+A runs entry 3. */
  lemma HintA()
    ensures FirstMatch(GlobalShortcuts, Press("a", true, false)) == Some(GlobalShortcuts[3].action)
  {
    OnlyEntryFires(Press("a", true, false), 3);
  }

  /** Ctrl+N runs entry 4. */
  lemma HintN()
    ensures FirstMatch(GlobalShortcuts, Press("n", true, false)) == Some(GlobalShortcuts[4].action)
  {
    OnlyEntryFires(Press("n", true, false), 4);
  }

  /** The five commands of the palette that show a shortcut hint, and the routes they run. */
  lemma HintedRoutes()
    ensures CommandPalette.Commands[0].shortcut == Some("Ctrl+D") && CommandPalette.Commands[0].route == "/dashboard"
    ensures CommandPalette.Commands[1].shortcut == Some("Ctrl+P") && CommandPalette.Commands[1].route == "/preview"
    ensures CommandPalette.Commands[2].shortcut == Some("Ctrl+Shift+S") && CommandPalette.Commands[2].route == "/share"
    ensures CommandPalette.Commands[3].shortcut == Some("Ctrl+A") && CommandPalette.Commands[3].route == "/dashboard/analyze"
    ensures CommandPalette.Commands[9].shortcut == Some("Ctrl+N") && CommandPalette.Commands[9].route == "/dashboard/cvs"
  {
  }

  /**
   * Every shortcut hint the command palette shows is served by the global table: the key, with
   * Ctrl and with Shift as the hint says, navigates to that command's route.
   */
  lemma PaletteHintsAgree()
    ensures FirstMatch(GlobalShortcuts, Press("d", true, false)) == Some(Navigate(CommandPalette.Commands[0].route))
    ensures FirstMatch(GlobalShortcuts, Press("p", true, false)) == Some(Navigate(CommandPalette.Commands[1].route))
    ensures FirstMatch(GlobalShortcuts, Press("s", true, true)) == Some(Navigate(CommandPalette.Commands[2].route))
    ensures FirstMatch(GlobalShortcuts, Press("a", true, false)) == Some(Navigate(CommandPalette.Commands[3].route))
    ensures FirstMatch(GlobalShortcuts, Press("n", true, false)) == Some(Navigate(CommandPalette.Commands[9].route))
  {
    HintedRoutes();
    HintD();
    HintP();
    HintS();
    HintA();
    HintN();
  }
}
