/**
 * The education editor page: the draft of a new entry, the check made when it is added, and the
 * field edits it sends to the document store.
 */
module EducationPage {
  import opened Options
  import opened Seqs
  import opened CVStore
  import opened FormFields

  /** The new-entry form: an education entry without its id, every field a plain text field. */
  datatype EducationDraft = EducationDraft(
    degree: string, institution: string, location: string, startDate: string, endDate: string,
    description: string)

  /** The form as the page opens it and resets it. */
  const EmptyDraft: EducationDraft := EducationDraft("", "", "", "", "", "")

  /** The fields the page has an input for; there is none for the start date. */
  datatype EducationField = DegreeField | InstitutionField | LocationField | EndDateField | DescriptionField

  /** `addEducation(newEducation)`: refused when degree or institution is empty, otherwise the form as it is. */
  function AddRequest(d: EducationDraft): (r: Option<EducationEntry>)
    ensures r.Some? <==> d.degree != "" && d.institution != ""
    ensures r.Some? ==>
      && r.value.degree == d.degree && r.value.institution == d.institution
      && r.value.location == Some(d.location) && r.value.startDate == Some(d.startDate)
      && r.value.endDate == d.endDate && r.value.description == Some(d.description)
  {
    if d.degree == "" || d.institution == "" then None
    else Some(EducationEntry("", d.degree, d.institution, Some(d.location), Some(d.startDate), d.endDate, Some(d.description)))
  }

  /** Typing in one field of the form. */
  function DraftWithField(d: EducationDraft, f: EducationField, value: string): (r: EducationDraft)
    ensures r.startDate == d.startDate
  {
    match f
    case DegreeField => d.(degree := value)
    case InstitutionField => d.(institution := value)
    case LocationField => d.(location := value)
    case EndDateField => d.(endDate := value)
    case DescriptionField => d.(description := value)
  }

  /** `updateEducation(edu.id, { degree: value })` and its siblings: a patch holding that one field. */
  function FieldPatch(f: EducationField, value: string): (r: EducationEntryPatch)
    ensures r.id.None? && r.startDate.None?
  {
    var none := EducationEntryPatch(None, None, None, None, None, None, None);
    match f
    case DegreeField => none.(degree := Some(value))
    case InstitutionField => none.(institution := Some(value))
    case LocationField => none.(location := Some(value))
    case EndDateField => none.(endDate := Some(value))
    case DescriptionField => none.(description := Some(value))
  }

  /** What the entry looks like with field `f` holding `value` and every other field as before. */
  function WithField(e: EducationEntry, f: EducationField, value: string): EducationEntry {
    match f
    case DegreeField => e.(degree := value)
    case InstitutionField => e.(institution := value)
    case LocationField => e.(location := Some(value))
    case EndDateField => e.(endDate := value)
    case DescriptionField => e.(description := Some(value))
  }

  /** A one-field patch changes exactly that field of the entry and keeps its id. */
  lemma FieldPatchChangesOneField(e: EducationEntry, f: EducationField, value: string)
    ensures MergeEducationEntry(e, FieldPatch(f, value)) == WithField(e, f, value)
    ensures MergeEducationEntry(e, FieldPatch(f, value)).id == e.id
  {
  }

  /** The page: the draft, the entry shown expanded, and the document store it edits. */
  class EducationEditor {
    var store: StoreState
    var draft: EducationDraft
    var expanded: Option<string>

    /** No input edits the start date of the draft, so it stays empty. */
    predicate Valid()
      reads this
    {
      draft.startDate == ""
    }

    /** The page opens with an empty draft and the first entry expanded. */
    constructor (store: StoreState)
      ensures Valid()
      ensures this.store == store && draft == EmptyDraft
      ensures expanded == InitialExpanded(Map(store.cv.education, (e: EducationEntry) => e.id))
    {
      this.store := store;
      draft := EmptyDraft;
      expanded := InitialExpanded(Map(store.cv.education, (e: EducationEntry) => e.id));
    }

    /**
     * `handleAddEducation`: a draft without degree or institution changes nothing; otherwise the
     * form is added under `id` as it is, with an empty start date, and the draft is reset.
     */
    method HandleAdd(id: string) returns (added: bool)
      requires Valid()
      modifies this`store, this`draft
      ensures Valid()
      ensures added <==> old(draft).degree != "" && old(draft).institution != ""
      ensures !added ==> store == old(store) && draft == old(draft)
      ensures added ==> store == AddEducation(old(store), AddRequest(old(draft)).value, id) && draft == EmptyDraft
      ensures added ==> store.cv.education[|store.cv.education| - 1].startDate == Some("")
    {
      var request := AddRequest(draft);
      added := request.Some?;
      if added {
        store := AddEducation(store, request.value, id);
        draft := EmptyDraft;
      }
    }

    /** Typing in one field of the draft. */
    method EditDraft(f: EducationField, value: string)
      requires Valid()
      modifies this`draft
      ensures Valid()
      ensures draft == DraftWithField(old(draft), f, value)
    {
      draft := DraftWithField(draft, f, value);
    }

    /** Typing in one field of the stored entry `id`. */
    method EditStored(id: string, f: EducationField, value: string)
      modifies this`store
      ensures store == UpdateEducation(old(store), id, FieldPatch(f, value))
    {
      store := UpdateEducation(store, id, FieldPatch(f, value));
    }

    /** `handleDeleteEducation`. */
    method HandleDelete(id: string)
      modifies this`store
      ensures store == RemoveEducation(old(store), id)
    {
      store := RemoveEducation(store, id);
    }

    /** Clicking an entry's header. */
    method Toggle(id: string)
      modifies this`expanded
      ensures expanded == ToggleExpanded(old(expanded), id)
    {
      expanded := ToggleExpanded(expanded, id);
    }
  }
}
