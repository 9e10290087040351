/**
 * The projects editor page: the draft of a new project, the checks made when it is added, the
 * header line of each stored project, and the field edits it sends to the document store.
 */
module ProjectsPage {
  import opened Options
  import opened Seqs
  import opened Text
  import opened CVStore
  import opened FormFields

  /** The new-project form: a project without its id; the link is a plain text field. */
  datatype ProjectDraft = ProjectDraft(
    name: string, date: string, description: string, highlights: seq<string>,
    technologies: seq<string>, link: string)

  /** The form as the page opens it and resets it: every field empty and one blank highlight row. */
  const EmptyDraft: ProjectDraft := ProjectDraft("", "", "", [""], [], "")

  /** The text fields of a project that the page edits one at a time. */
  datatype ProjectField = NameField | DateField | DescriptionField | LinkField

  // ----- Adding the draft -----

  /**
   * `{ ...newProject, highlights: highlights.filter(h => h.trim()) }`, refused when the name is
   * empty; the kept highlights are the non-blank ones, in order.
   */
  function AddRequest(d: ProjectDraft): (r: Option<ProjectEntry>)
    ensures r.Some? <==> d.name != ""
    ensures r.Some? ==>
      && r.value.name == d.name && r.value.date == d.date && r.value.description == d.description
      && r.value.technologies == d.technologies && r.value.link == Some(d.link)
      && r.value.highlights == NonBlank(d.highlights)
  {
    if d.name == "" then None
    else Some(ProjectEntry("", d.name, d.date, d.description, NonBlank(d.highlights), d.technologies, Some(d.link)))
  }

  /**
   * The form has no input for highlights, so they stay the one blank row, and every project the
   * page adds is stored without highlights.
   */
  lemma AddedProjectHasNoHighlights(d: ProjectDraft)
    requires d.highlights == [""] && d.name != ""
    ensures AddRequest(d).value.highlights == []
  {
    assert AllWhitespace("");
    assert !HasText("");
    assert [""][1..] == [];
  }

  // ----- One field at a time -----

  /** A draft with one text field replaced. */
  function DraftWithField(d: ProjectDraft, f: ProjectField, value: string): ProjectDraft {
    match f
    case NameField => d.(name := value)
    case DateField => d.(date := value)
    case DescriptionField => d.(description := value)
    case LinkField => d.(link := value)
  }

  /** `updateProject(id, { name: value })` and its siblings: a patch holding that one field. */
  function FieldPatch(f: ProjectField, value: string): (r: ProjectEntryPatch)
    ensures r.id.None? && r.highlights.None? && r.technologies.None?
  {
    var none := ProjectEntryPatch(None, None, None, None, None, None, None);
    match f
    case NameField => none.(name := Some(value))
    case DateField => none.(date := Some(value))
    case DescriptionField => none.(description := Some(value))
    case LinkField => none.(link := Some(value))
  }

  /** The technologies field of a stored project: `{ technologies: value.split(',').map(t => t.trim()) }`. */
  function TechnologiesPatch(input: string): (r: ProjectEntryPatch)
    ensures r.technologies == Some(ParseTechnologies(input))
  {
    ProjectEntryPatch(None, None, None, None, None, Some(ParseTechnologies(input)), None)
  }

  /** What the entry looks like with field `f` holding `value` and every other field as before. */
  function WithField(p: ProjectEntry, f: ProjectField, value: string): ProjectEntry {
    match f
    case NameField => p.(name := value)
    case DateField => p.(date := value)
    case DescriptionField => p.(description := value)
    case LinkField => p.(link := Some(value))
  }

  /** A one-field patch changes exactly that field of the entry and keeps its id. */
  lemma FieldPatchChangesOneField(p: ProjectEntry, f: ProjectField, value: string)
    ensures MergeProjectEntry(p, FieldPatch(f, value)) == WithField(p, f, value)
    ensures MergeProjectEntry(p, FieldPatch(f, value)).id == p.id
  {
  }

  /** Editing the technologies of a stored entry changes only its technologies, to the parsed list. */
  lemma TechnologiesPatchChangesOneField(p: ProjectEntry, input: string)
    ensures MergeProjectEntry(p, TechnologiesPatch(input)) == p.(technologies := ParseTechnologies(input))
  {
  }

  // ----- The header line of a stored project -----

  /** `technologies.slice(0, 3).join(', ')` followed by `'...'` when there are more than three. */
  function HeaderTechnologies(technologies: seq<string>): (r: string)
    ensures |technologies| <= 3 ==> r == TechnologiesText(technologies)
  {
    if |technologies| <= 3 then TechnologiesText(technologies)
    else TechnologiesText(technologies[..3]) + "..."
  }

  /**
   * The header names exactly the first three technologies (all of them when there are at most
   * three), and ends with `...` exactly when some are not shown; for trimmed names without commas.
   */
  lemma HeaderNamesFirstThree(technologies: seq<string>)
    requires technologies != []
    requires forall k :: 0 <= k < |technologies| ==> IsTrimmed(technologies[k]) && ',' !in technologies[k]
    ensures var r := HeaderTechnologies(technologies);
      && (|technologies| <= 3 ==> ParseTechnologies(r) == technologies)
      && (|technologies| > 3 ==>
            && EndsWith(r, "...")
            && ParseTechnologies(r[..|r| - 3]) == technologies[..3])
  {
    var r := HeaderTechnologies(technologies);
    if |technologies| <= 3 {
      ParseShown(technologies);
    } else {
      var shown := technologies[..3];
      ParseShown(shown);
      assert r == TechnologiesText(shown) + "...";
      assert r[..|r| - 3] == TechnologiesText(shown);
    }
  }

  /** The page: the draft, the project shown expanded, and the document store it edits. */
  class ProjectEditor {
    var store: StoreState
    var draft: ProjectDraft
    var expanded: Option<string>

    /** Nothing on the page edits the highlights of the draft: they stay the one blank row. */
    predicate Valid()
      reads this
    {
      draft.highlights == [""]
    }

    /** The page opens with an empty draft and the first project expanded. */
    constructor (store: StoreState)
      ensures Valid()
      ensures this.store == store && draft == EmptyDraft
      ensures expanded == InitialExpanded(Map(store.cv.projects, (p: ProjectEntry) => p.id))
    {
      this.store := store;
      draft := EmptyDraft;
      expanded := InitialExpanded(Map(store.cv.projects, (p: ProjectEntry) => p.id));
    }

    /**
     * `handleAddProject`: a draft without a name changes nothing; otherwise the project is added
     * under `id`, without highlights, and the draft is reset.
     */
    method HandleAdd(id: string) returns (added: bool)
      requires Valid()
      modifies this`store, this`draft
      ensures Valid()
      ensures added <==> old(draft).name != ""
      ensures !added ==> store == old(store) && draft == old(draft)
      ensures added ==> store == AddProject(old(store), AddRequest(old(draft)).value, id) && draft == EmptyDraft
      ensures added ==> store.cv.projects[|store.cv.projects| - 1].highlights == []
    {
      var request := AddRequest(draft);
      added := request.Some?;
      if added {
        AddedProjectHasNoHighlights(draft);
        store := AddProject(store, request.value, id);
        draft := EmptyDraft;
      }
    }

    /** Typing in one text field of the draft. */
    method EditDraft(f: ProjectField, value: string)
      requires Valid()
      modifies this`draft
      ensures Valid()
      ensures draft == DraftWithField(old(draft), f, value)
    {
      draft := DraftWithField(draft, f, value);
    }

    /** Typing in the technologies field of the draft. */
    method EditDraftTechnologies(input: string)
      requires Valid()
      modifies this`draft
      ensures Valid()
      ensures draft == old(draft).(technologies := ParseTechnologies(input))
    {
      draft := draft.(technologies := ParseTechnologies(input));
    }

    /** Typing in one text field of the stored project `id`. */
    method EditStored(id: string, f: ProjectField, value: string)
      modifies this`store
      ensures store == UpdateProject(old(store), id, FieldPatch(f, value))
    {
      store := UpdateProject(store, id, FieldPatch(f, value));
    }

    /** Typing in the technologies field of the stored project `id`. */
    method EditStoredTechnologies(id: string, input: string)
      modifies this`store
      ensures store == UpdateProject(old(store), id, TechnologiesPatch(input))
    {
      store := UpdateProject(store, id, TechnologiesPatch(input));
    }

    /** `handleDeleteProject`. */
    method HandleDelete(id: string)
      modifies this`store
      ensures store == RemoveProject(old(store), id)
    {
      store := RemoveProject(store, id);
    }

    /** Clicking a project's header. */
    method Toggle(id: string)
      modifies this`expanded
      ensures expanded == ToggleExpanded(old(expanded), id)
    {
      expanded := ToggleExpanded(expanded, id);
    }
  }
}
