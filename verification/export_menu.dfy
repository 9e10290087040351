/**
 * The export menu of the CV editor: the JSON document it writes (the CV plus `_metadata`), how an
 * imported document is unwrapped and checked before it replaces the CV, the reset, and the flag
 * that keeps two image exports from running at once.  Reading the file and `JSON.parse` are
 * outside the model: the parsed document (or the failure to parse) is the input.
 */
module ExportMenu {
  import opened Options
  import opened Text
  import opened CVStore
  import opened FileNames

  datatype ExportMetadata = ExportMetadata(exportedAt: string, version: string, generator: string)

  /**
   * A parsed JSON document as far as the import looks at it: each of the eight CV parts may be
   * missing, and `_metadata` marks a document this menu wrote.
   */
  datatype JsonDoc = JsonDoc(
    personalInfo: Option<PersonalInfo>, skills: Option<TechnicalSkills>, experience: Option<seq<ExperienceEntry>>,
    education: Option<seq<EducationEntry>>, projects: Option<seq<ProjectEntry>>,
    certifications: Option<seq<CertificationEntry>>, softSkills: Option<seq<string>>,
    languages: Option<seq<LanguageEntry>>, metadata: Option<ExportMetadata>)

  /** All eight CV parts are present. */
  predicate Complete(doc: JsonDoc) {
    && doc.personalInfo.Some? && doc.skills.Some? && doc.experience.Some? && doc.education.Some?
    && doc.projects.Some? && doc.certifications.Some? && doc.softSkills.Some? && doc.languages.Some?
  }

  /** The CV a complete document holds. */
  function AsCVData(doc: JsonDoc): CVData
    requires Complete(doc)
  {
    CVData(doc.personalInfo.value, doc.skills.value, doc.experience.value, doc.education.value,
           doc.projects.value, doc.certifications.value, doc.softSkills.value, doc.languages.value)
  }

  /** `{ ...cv, _metadata: { exportedAt, version: '1.0.0', generator: 'ResumeHub' } }`. */
  function ExportDocument(cv: CVData, exportedAt: string): (r: JsonDoc)
    ensures Complete(r) && AsCVData(r) == cv
    ensures r.metadata == Some(ExportMetadata(exportedAt, "1.0.0", "ResumeHub"))
  {
    JsonDoc(Some(cv.personalInfo), Some(cv.skills), Some(cv.experience), Some(cv.education), Some(cv.projects),
            Some(cv.certifications), Some(cv.softSkills), Some(cv.languages),
            Some(ExportMetadata(exportedAt, "1.0.0", "ResumeHub")))
  }

  /** A JSON download: the file name and the document. */
  datatype JsonDownload = JsonDownload(fileName: string, doc: JsonDoc)

  /** `handleExportJSON`: the wrapped CV, in a file named after the owner and the day of `isoNow`. */
  function ExportJson(cv: CVData, isoNow: string): (r: JsonDownload)
    ensures r.fileName == ExportFileName(cv.personalInfo.name, isoNow, "json")
    ensures EndsWith(r.fileName, ".json")
    ensures Complete(r.doc) && AsCVData(r.doc) == cv && r.doc.metadata.Some?
  {
    JsonDownload(ExportFileName(cv.personalInfo.name, isoNow, "json"), ExportDocument(cv, isoNow))
  }

  /**
   * `data._metadata ? { the eight parts of data } : data`: a wrapped document loses its
   * `_metadata` and keeps the eight parts; any other document is taken as it is.
   */
  function Unwrap(doc: JsonDoc): (r: JsonDoc)
    ensures r.metadata.None?
    ensures r.(metadata := doc.metadata) == doc
  {
    if doc.metadata.Some? then
      JsonDoc(doc.personalInfo, doc.skills, doc.experience, doc.education, doc.projects,
              doc.certifications, doc.softSkills, doc.languages, None)
    else doc
  }

  /** The basic check: personal info, skills and experience must be present. */
  function Validate(doc: JsonDoc): (r: Result<JsonDoc>)
    ensures r.Ok? <==> doc.personalInfo.Some? && doc.skills.Some? && doc.experience.Some?
    ensures r.Ok? ==> r.value == doc
    ensures r.Err? ==> r.message == "Invalid CV data structure"
  {
    if doc.personalInfo.None? || doc.skills.None? || doc.experience.None? then Err("Invalid CV data structure")
    else Ok(doc)
  }

  /** What was read from the chosen file: text that is not JSON, or a parsed document. */
  datatype FileContent = NotJson | Json(doc: JsonDoc)

  /**
   * What an import does: nothing without a file; an error message for text that is not JSON or
   * for a document that fails the check; otherwise `importCV`.  A document that passes the check
   * but lacks one of the five unchecked parts is handed to `importCV` as it is; `CVData` cannot
   * hold a missing part, so that outcome carries the document instead of a new state.
   */
  datatype ImportOutcome = NoFile | Rejected(message: string) | Imported(state: StoreState) | ImportedIncomplete(doc: JsonDoc)

  /** `handleImportJSON` on the store state `st`. */
  function HandleImport(st: StoreState, file: Option<FileContent>): (r: ImportOutcome)
    ensures file.None? <==> r.NoFile?
    ensures file == Some(NotJson) ==> r.Rejected?
    ensures (file.Some? && file.value.Json?) ==>
      var d := file.value.doc;
      (r.Rejected? <==> d.personalInfo.None? || d.skills.None? || d.experience.None?)
    ensures r.Imported? ==>
      && r.state.settings == st.settings && file.Some? && file.value.Json?
      && Complete(file.value.doc) && r.state.cv == AsCVData(file.value.doc)
    ensures r.ImportedIncomplete? ==> !Complete(r.doc)
  {
    match file
    case None => NoFile
    case Some(NotJson) => Rejected("Unexpected token")
    case Some(Json(doc)) =>
      match Validate(Unwrap(doc))
      case Err(msg) => Rejected(msg)
      case Ok(d) =>
        if Complete(d) then Imported(ImportCV(st, AsCVData(d))) else ImportedIncomplete(d)
  }

  /** Importing an exported CV gives back the same CV and leaves the settings alone. */
  lemma ExportImportRoundTrip(st: StoreState, cv: CVData, isoNow: string)
    ensures HandleImport(st, Some(Json(ExportJson(cv, isoNow).doc))) == Imported(ImportCV(st, cv))
  {
  }

  /** A document without `_metadata` (written by hand or by an older version) imports just like a wrapped one. */
  lemma ImportIgnoresMetadata(st: StoreState, doc: JsonDoc, m: ExportMetadata)
    ensures HandleImport(st, Some(Json(doc.(metadata := Some(m))))) == HandleImport(st, Some(Json(doc.(metadata := None))))
  {
  }

  /** `handleReset`: back to the defaults only when the dialog is confirmed. */
  function ResetIfConfirmed(st: StoreState, confirmed: bool): (r: StoreState)
    ensures confirmed ==> r == InitialState
    ensures !confirmed ==> r == st
  {
    if confirmed then ResetCV(st) else st
  }

  /** The `isExporting` flag of the PDF and PNG exports. */
  class ExportGuard {
    var isExporting: bool

    constructor()
      ensures !isExporting
    {
      isExporting := false;
    }

    /** Entering an export handler: it returns at once while another export runs, else it raises the flag. */
    method Begin() returns (started: bool)
      modifies this
      ensures started == !old(isExporting)
      ensures isExporting
    {
      if isExporting {
        return false;
      }
      isExporting := true;
      return true;
    }

    /** The `finally` of a started handler, reached on success, on a missing element and on error alike. */
    method Finish()
      modifies this
      ensures !isExporting
    {
      isExporting := false;
    }
  }
}
