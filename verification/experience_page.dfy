/**
 * The experience editor page: the draft of a new entry with its task list, the checks made when
 * it is added, and the edits it sends to the document store.
 */
module ExperiencePage {
  import opened Options
  import opened Seqs
  import opened Text
  import opened CVStore
  import opened FormFields

  /** The new-entry form: an experience without its id. */
  datatype ExperienceDraft = ExperienceDraft(
    role: string, company: string, location: string, startDate: string, endDate: string,
    tasks: seq<string>, technologies: seq<string>)

  /** The form as the page opens it and resets it: every field empty and one blank task row. */
  const EmptyDraft: ExperienceDraft := ExperienceDraft("", "", "", "", "", [""], [])

  // ----- The task rows of the draft -----

  /** `splice(index + 1, 0, '')`: a blank row right after row `index` (at the end when `index` is the last row or beyond). */
  function InsertBlankTask(tasks: seq<string>, index: nat): (r: seq<string>)
    ensures |r| == |tasks| + 1
    ensures var at := if index + 1 <= |tasks| then index + 1 else |tasks|;
      r[at] == "" && r[..at] == tasks[..at] && r[at + 1..] == tasks[at..]
    ensures IsSubsequence(tasks, r)
    ensures multiset(r) == multiset(tasks) + multiset{""}
  {
    var at := if index + 1 <= |tasks| then index + 1 else |tasks|;
    var r := tasks[..at] + [""] + tasks[at..];
    assert tasks == tasks[..at] + tasks[at..];
    InsertKeepsOrder(tasks[..at], "", tasks[at..]);
    r
  }

  /** Putting one element between two parts keeps the two parts, in order, as a subsequence. */
  lemma {:induction false} InsertKeepsOrder(a: seq<string>, x: string, b: seq<string>)
    ensures IsSubsequence(a + b, a + [x] + b)
    decreases |a|
  {
    var kept, spliced := a + b, a + [x] + b;
    if a == [] {
      assert kept == b && spliced == [x] + b;
      SubsequenceOfItself(b);
      ConsRight(b, x, b);
    } else {
      assert kept[0] == spliced[0] == a[0];
      assert kept[1..] == a[1..] + b;
      assert spliced[1..] == a[1..] + [x] + b;
      InsertKeepsOrder(a[1..], x, b);
    }
  }

  /** `newTasks[index] = value`: only row `index` changes. */
  function SetTask(tasks: seq<string>, index: nat, value: string): (r: seq<string>)
    requires index < |tasks|
    ensures |r| == |tasks| && r[index] == value
    ensures forall j :: 0 <= j < |tasks| && j != index ==> r[j] == tasks[j]
  {
    tasks[index := value]
  }

  /** `removeTask`: the last remaining row is never removed; otherwise row `index` is dropped and the rest keep their order. */
  function RemoveTaskAt(tasks: seq<string>, index: nat): (r: seq<string>)
    ensures tasks != [] ==> r != []
    ensures |tasks| == 1 || index >= |tasks| ==> r == tasks
    ensures |tasks| != 1 && index < |tasks| ==>
      && |r| == |tasks| - 1
      && (forall j :: 0 <= j < index ==> r[j] == tasks[j])
      && (forall j :: index <= j < |r| ==> r[j] == tasks[j + 1])
  {
    if |tasks| == 1 || index >= |tasks| then tasks else tasks[..index] + tasks[index + 1..]
  }

  /** Removing the blank row just inserted after row `index` gives the list back. */
  lemma RemoveUndoesInsert(tasks: seq<string>, index: nat)
    requires index < |tasks|
    ensures RemoveTaskAt(InsertBlankTask(tasks, index), index + 1) == tasks
  {
    var r := RemoveTaskAt(InsertBlankTask(tasks, index), index + 1);
    assert |r| == |tasks|;
    forall j | 0 <= j < |tasks| ensures r[j] == tasks[j] {
      if j <= index {
        assert InsertBlankTask(tasks, index)[..index + 1][j] == tasks[..index + 1][j];
      } else {
        assert InsertBlankTask(tasks, index)[index + 2..][j - index - 1] == tasks[index + 1..][j - index - 1];
      }
    }
  }

  // ----- Adding the draft -----

  /**
   * `{ ...newExperience, tasks: tasks.filter(t => t.trim()) }`, refused when role or company is
   * empty; the kept tasks are the non-blank ones, in order (`NonBlank`).
   */
  function AddRequest(d: ExperienceDraft): (r: Option<ExperienceEntry>)
    ensures r.Some? <==> d.role != "" && d.company != ""
    ensures r.Some? ==>
      && r.value.role == d.role && r.value.company == d.company && r.value.location == d.location
      && r.value.startDate == d.startDate && r.value.endDate == d.endDate
      && r.value.technologies == d.technologies && r.value.tasks == NonBlank(d.tasks)
  {
    if d.role == "" || d.company == "" then None
    else Some(ExperienceEntry("", d.role, d.company, d.location, d.startDate, d.endDate, NonBlank(d.tasks), d.technologies))
  }

  /** A patch that sets only the tasks. */
  function TasksPatch(tasks: seq<string>): ExperienceEntryPatch {
    ExperienceEntryPatch(None, None, None, None, None, None, Some(tasks), None)
  }

  /** The page: the draft, the entry shown expanded, and the document store it edits. */
  class ExperienceEditor {
    var store: StoreState
    var draft: ExperienceDraft
    var expanded: Option<string>

    /** The draft always has at least one task row. */
    predicate Valid()
      reads this
    {
      draft.tasks != []
    }

    /** The page opens with an empty draft and the first entry expanded. */
    constructor (store: StoreState)
      ensures Valid()
      ensures this.store == store && draft == EmptyDraft
      ensures expanded == InitialExpanded(Map(store.cv.experience, (e: ExperienceEntry) => e.id))
    {
      this.store := store;
      draft := EmptyDraft;
      expanded := InitialExpanded(Map(store.cv.experience, (e: ExperienceEntry) => e.id));
    }

    /** `handleAddExperience`: an incomplete draft changes nothing; otherwise the entry is added under `id` and the draft is reset. */
    method HandleAdd(id: string) returns (added: bool)
      requires Valid()
      modifies this
      ensures Valid()
      ensures added <==> AddRequest(old(draft)).Some?
      ensures !added ==> store == old(store) && draft == old(draft) && expanded == old(expanded)
      ensures added ==> store == AddExperience(old(store), AddRequest(old(draft)).value, id) && draft == EmptyDraft
      ensures expanded == old(expanded)
    {
      var request := AddRequest(draft);
      added := request.Some?;
      if added {
        store := AddExperience(store, request.value, id);
        draft := EmptyDraft;
      }
    }

    /** `addTask`. */
    method AddTask(index: nat)
      requires Valid()
      modifies this`draft
      ensures Valid()
      ensures draft == old(draft).(tasks := InsertBlankTask(old(draft).tasks, index))
    {
      draft := draft.(tasks := InsertBlankTask(draft.tasks, index));
    }

    /** `updateTask`. */
    method UpdateTask(index: nat, value: string)
      requires Valid() && index < |draft.tasks|
      modifies this`draft
      ensures Valid()
      ensures draft == old(draft).(tasks := SetTask(old(draft).tasks, index, value))
    {
      draft := draft.(tasks := SetTask(draft.tasks, index, value));
    }

    /** `removeTask`. */
    method RemoveTask(index: nat)
      requires Valid()
      modifies this`draft
      ensures Valid()
      ensures draft == old(draft).(tasks := RemoveTaskAt(old(draft).tasks, index))
    {
      draft := draft.(tasks := RemoveTaskAt(draft.tasks, index));
    }

    /** Typing in the technologies field of the draft. */
    method EditTechnologies(input: string)
      requires Valid()
      modifies this`draft
      ensures Valid()
      ensures draft == old(draft).(technologies := ParseTechnologies(input))
    {
      draft := draft.(technologies := ParseTechnologies(input));
    }

    /** `handleUpdateExperience`: a field edit of a stored entry goes to the store as it is. */
    method HandleUpdate(id: string, d: ExperienceEntryPatch)
      modifies this`store
      ensures store == UpdateExperience(old(store), id, d)
    {
      store := UpdateExperience(store, id, d);
    }

    /** Editing task row `index` of the shown entry `e` sends its whole task list with that row replaced. */
    method EditStoredTask(e: ExperienceEntry, index: nat, value: string)
      requires index < |e.tasks|
      modifies this`store
      ensures store == UpdateExperience(old(store), e.id, TasksPatch(SetTask(e.tasks, index, value)))
    {
      HandleUpdate(e.id, TasksPatch(SetTask(e.tasks, index, value)));
    }

    /** `handleDeleteExperience`. */
    method HandleDelete(id: string)
      modifies this`store
      ensures store == RemoveExperience(old(store), id)
    {
      store := RemoveExperience(store, id);
    }

    /** Clicking an entry's header. */
    method Toggle(id: string)
      modifies this`expanded
      ensures expanded == ToggleExpanded(old(expanded), id)
    {
      expanded := ToggleExpanded(expanded, id);
    }
  }
}
