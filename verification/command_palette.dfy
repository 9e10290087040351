/**
 * The command palette: a fixed list of navigation commands, the search that filters it, and the
 * small state machine of the open flag, the search text and the highlighted row.  Running a
 * command is navigating to its route; the routes visited are kept in order.
 */
module CommandPalette {
  import opened Options
  import opened Seqs
  import opened Text

  datatype PaletteCommand = PaletteCommand(
    id: string, title: string, description: Option<string>, route: string,
    keywords: Option<seq<string>>, shortcut: Option<string>)

  /** The eleven commands, in the order the palette lists them. */
  const Commands: seq<PaletteCommand> := [
    PaletteCommand("dashboard", "Dashboard", Some("Go to dashboard overview"), "/dashboard",
                   Some(["home", "main"]), Some("Ctrl+D")),
    PaletteCommand("preview", "Preview CV", Some("Preview your CV"), "/preview",
                   Some(["view", "see"]), Some("Ctrl+P")),
    PaletteCommand("share", "Share & Export", Some("Share link or export PDF"), "/share",
                   Some(["download", "pdf", "link"]), Some("Ctrl+Shift+S")),
    PaletteCommand("analyze", "CV Analyzer", Some("Get CV suggestions"), "/dashboard/analyze",
                   Some(["ai", "suggestions", "improve"]), Some("Ctrl+A")),
    PaletteCommand("profile", "Edit Profile", Some("Update personal info"), "/dashboard/profile",
                   Some(["name", "contact", "photo"]), None),
    PaletteCommand("experience", "Edit Experience", Some("Manage work experience"), "/dashboard/experience",
                   Some(["work", "job", "internship"]), None),
    PaletteCommand("projects", "Edit Projects", Some("Manage portfolio projects"), "/dashboard/projects",
                   Some(["portfolio", "apps"]), None),
    PaletteCommand("skills", "Edit Skills", Some("Manage technical skills"), "/dashboard/skills",
                   Some(["tech", "languages", "tools"]), None),
    PaletteCommand("education", "Edit Education", Some("Manage education history"), "/dashboard/education",
                   Some(["degree", "university", "school"]), None),
    PaletteCommand("cvs", "My CVs", Some("Manage CV variants"), "/dashboard/cvs",
                   Some(["variants", "templates"]), Some("Ctrl+N")),
    PaletteCommand("settings", "Settings", Some("App preferences"), "/dashboard/settings",
                   Some(["theme", "language", "preferences"]), None)
  ]

  // ----- Filtering -----

  /**
   * The filter's test: the lower-cased search occurs in the lower-cased title, or in the
   * lower-cased description, or in one of the keywords as they are written (not lower-cased).
   */
  predicate Matches(cmd: PaletteCommand, search: string) {
    var needle := ToLower(search);
    Contains(ToLower(cmd.title), needle)
    || (cmd.description.Some? && Contains(ToLower(cmd.description.value), needle))
    || (cmd.keywords.Some? && exists k :: k in cmd.keywords.value && Contains(k, needle))
  }

  /** `filteredCommands`: the commands that match, in list order. */
  function Filtered(commands: seq<PaletteCommand>, search: string): (r: seq<PaletteCommand>)
    ensures forall c :: c in r <==> c in commands && Matches(c, search)
    ensures IsSubsequence(r, commands)
  {
    FilterIsSubsequence(commands, c => Matches(c, search));
    Filter(commands, c => Matches(c, search))
  }

  /** An empty search keeps every command, since every title includes the empty string. */
  lemma EmptySearchKeepsAll(commands: seq<PaletteCommand>)
    ensures Filtered(commands, "") == commands
  {
    forall c | c in commands ensures Matches(c, "") {
      ContainsEmpty(ToLower(c.title));
    }
    FilterKeepsAll(commands, c => Matches(c, ""));
  }

  /** The search ignores letter case: two searches that lower-case alike keep the same commands. */
  lemma SearchIgnoresCase(commands: seq<PaletteCommand>, a: string, b: string)
    requires ToLower(a) == ToLower(b)
    ensures Filtered(commands, a) == Filtered(commands, b)
  {
    FilterAgrees(commands, c => Matches(c, a), c => Matches(c, b));
  }

  // ----- The highlighted row -----

  /** ArrowDown: `Math.min(prev + 1, count - 1)`. */
  function MoveDown(index: int, count: nat): (r: int)
    ensures count == 0 && index >= -1 ==> r == -1
    ensures count > 0 && index >= -1 ==> 0 <= r < count
    ensures r <= index + 1
  {
    if index + 1 <= count - 1 then index + 1 else count - 1
  }

  /** ArrowUp: `Math.max(prev - 1, 0)`. */
  function MoveUp(index: int): (r: int)
    ensures r >= 0
    ensures index >= 1 ==> r == index - 1
    ensures index <= 1 ==> r == 0
  {
    if index - 1 >= 0 then index - 1 else 0
  }

  /** Moving up undoes moving down, except on the last row, where moving down stays put. */
  lemma UpUndoesDown(index: int, count: nat)
    requires 0 <= index < count - 1
    ensures MoveUp(MoveDown(index, count)) == index
  {
  }

  /** `filteredCommands[selectedIndex]` is a command: the index lies inside the list. */
  predicate Selects(index: int, count: nat) {
    0 <= index < count
  }

  /** The palette and what it has navigated to. */
  class Palette {
    const commands: seq<PaletteCommand>
    var isOpen: bool
    var search: string
    var selectedIndex: int
    var visited: seq<string>

    /**
     * The highlighted row is a row of the list; when the list is empty it is 0, or -1 after
     * ArrowDown.
     */
    predicate Valid()
      reads this
    {
      var count := |Filtered(commands, search)|;
      && (count > 0 ==> 0 <= selectedIndex < count)
      && (count == 0 ==> -1 <= selectedIndex <= 0)
    }

    /** Closed, empty search, first row highlighted, nothing visited; the app passes `Commands`. */
    constructor (commands: seq<PaletteCommand>)
      ensures Valid()
      ensures this.commands == commands && !isOpen && search == "" && selectedIndex == 0 && visited == []
    {
      this.commands := commands;
      isOpen, search, selectedIndex, visited := false, "", 0, [];
    }

    /** The window listener: Ctrl or Meta with `k` toggles the palette; Escape closes it. */
    method GlobalKey(key: string, ctrlKey: bool, metaKey: bool)
      modifies this`isOpen
      ensures (ctrlKey || metaKey) && key == "k" ==> isOpen == !old(isOpen)
      ensures key == "Escape" ==> !isOpen
      ensures !((ctrlKey || metaKey) && key == "k") && key != "Escape" ==> isOpen == old(isOpen)
    {
      if (metaKey || ctrlKey) && key == "k" {
        isOpen := !isOpen;
      }
      if key == "Escape" {
        isOpen := false;
      }
    }

    /** Typing in the search box; the highlight goes back to row 0 only when the text changes. */
    method SetSearch(value: string)
      requires Valid()
      modifies this`search, this`selectedIndex
      ensures Valid()
      ensures search == value
      ensures selectedIndex == if value != old(search) then 0 else old(selectedIndex)
    {
      if value != search {
        search := value;
        selectedIndex := 0;
      }
    }

    /** Running command `cmd`: navigate to its route, close the palette and clear the search. */
    method Run(cmd: PaletteCommand)
      requires Valid()
      modifies this`visited, this`isOpen, this`search, this`selectedIndex
      ensures Valid()
      ensures visited == old(visited) + [cmd.route] && !isOpen && search == ""
      ensures selectedIndex == if old(search) != "" then 0 else old(selectedIndex)
    {
      visited := visited + [cmd.route];
      isOpen := false;
      SetSearch("");
    }

    /**
     * The search box's key handler: ArrowDown and ArrowUp move the highlight within the list;
     * Enter runs the highlighted command when there is one.  Returns the route navigated to.
     */
    method PaletteKey(key: string) returns (ran: Option<string>)
      requires Valid()
      modifies this`visited, this`isOpen, this`search, this`selectedIndex
      ensures Valid()
      ensures var list := Filtered(commands, old(search));
        && (key == "ArrowDown" ==>
              selectedIndex == MoveDown(old(selectedIndex), |list|) && ran.None?
              && visited == old(visited) && isOpen == old(isOpen) && search == old(search))
        && (key == "ArrowUp" ==>
              selectedIndex == MoveUp(old(selectedIndex)) && ran.None?
              && visited == old(visited) && isOpen == old(isOpen) && search == old(search))
        && (key == "Enter" && Selects(old(selectedIndex), |list|) ==>
              ran == Some(list[old(selectedIndex)].route)
              && visited == old(visited) + [ran.value] && !isOpen && search == "")
        && (key == "Enter" && !Selects(old(selectedIndex), |list|) ==>
              ran.None? && visited == old(visited) && isOpen == old(isOpen) && search == old(search)
              && selectedIndex == old(selectedIndex))
      ensures key == "Enter" ==> (ran.Some? <==> Filtered(commands, old(search)) != [])
    {
      var list := Filtered(commands, search);
      ran := None;
      if key == "ArrowDown" {
        selectedIndex := MoveDown(selectedIndex, |list|);
      } else if key == "ArrowUp" {
        selectedIndex := MoveUp(selectedIndex);
      } else if key == "Enter" && Selects(selectedIndex, |list|) {
        ran := Some(list[selectedIndex].route);
        Run(list[selectedIndex]);
      }
    }

    /** Clicking row `index` of the list: the same as Enter on that row. */
    method Click(index: nat)
      requires Valid() && index < |Filtered(commands, search)|
      modifies this`visited, this`isOpen, this`search, this`selectedIndex
      ensures Valid()
      ensures visited == old(visited) + [Filtered(commands, old(search))[index].route]
      ensures !isOpen && search == ""
    {
      Run(Filtered(commands, search)[index]);
    }

    /** The backdrop and the close button. */
    method Close()
      modifies this`isOpen
      ensures !isOpen
    {
      isOpen := false;
    }
  }
}
