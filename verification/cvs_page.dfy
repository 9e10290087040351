/**
 * The CV variants page: the form that creates a variant, the guarded delete, choosing the
 * default, and the two formatters of a variant card.
 */
module CVsPage {
  import opened Options
  import opened Text
  import opened Entities
  import opened DbQueries
  import opened CareerDb

  // ----- Creating a variant -----

  /**
   * The record `handleCreateCV` hands to `addVariant`: refused when the name is blank after
   * trimming, otherwise the name exactly as typed and five empty selection lists, which the
   * composer reads as "use every record".
   */
  function CreateRequest(name: string, template: Template, language: Language): (r: Option<VariantInput>)
    ensures r.None? <==> AllWhitespace(name)
    ensures r.Some? ==>
      && r.value.name == name && r.value.template == template && r.value.language == language
      && r.value.selectedExperienceIds == [] && r.value.selectedProjectIds == []
      && r.value.selectedSkillIds == [] && r.value.selectedEducationIds == []
      && r.value.selectedCertificationIds == []
      && r.value.accentColor.None? && r.value.lastExportedAt.None?
  {
    if Trim(name) == "" then None
    else Some(VariantInput(name, language, template, [], [], [], [], [], None, None))
  }

  // ----- The variant cards -----

  /** What `handleDelete` did. */
  datatype DeleteOutcome = RefusedDefault | Cancelled | Removed | RemoveFailed(message: string)

  /** `formatDate`: `'Never'` without a date; otherwise the date as the `fr-FR` formatter `format` writes it. */
  function FormatDate(date: Option<int>, format: int -> string): (r: string)
    ensures date.None? ==> r == "Never"
    ensures date.Some? ==> r == format(date.value)
  {
    if date.None? then "Never" else format(date.value)
  }

  const ModernColor := "bg-blue-500/10 text-blue-500 border-blue-500/20"
  const MinimalColor := "bg-green-500/10 text-green-500 border-green-500/20"
  const OtherColor := "bg-purple-500/10 text-purple-500 border-purple-500/20"

  /** `getTemplateColor`: blue for `'modern'`, green for `'minimal'`, purple for any other value. */
  function TemplateColor(template: string): (r: string)
    ensures r == ModernColor <==> template == "modern"
    ensures r == MinimalColor <==> template == "minimal"
    ensures r == OtherColor <==> template != "modern" && template != "minimal"
  {
    if template == "modern" then ModernColor
    else if template == "minimal" then MinimalColor
    else OtherColor
  }

  /** The three templates a variant can hold get three different colours; `classic` takes the fallback. */
  lemma TemplateColorsDistinct(a: Template, b: Template)
    ensures TemplateColor(TemplateName(a)) == TemplateColor(TemplateName(b)) <==> a == b
    ensures TemplateColor(TemplateName(Classic)) == OtherColor
  {
  }

  /** The page: the new-variant form and the database it writes to. */
  class VariantsPage {
    const db: CareerDatabase
    var showNewForm: bool
    var newName: string
    var newTemplate: Template
    var newLanguage: Language

    /** The form starts hidden, with an empty name, the classic template and French. */
    constructor (db: CareerDatabase)
      ensures this.db == db
      ensures !showNewForm && newName == "" && newTemplate == Classic && newLanguage == Fr
    {
      this.db := db;
      showNewForm, newName, newTemplate, newLanguage := false, "", Classic, Fr;
    }

    /** The header button: `setShowNewForm(!showNewForm)`. */
    method ToggleNewForm()
      modifies this`showNewForm
      ensures showNewForm == !old(showNewForm)
    {
      showNewForm := !showNewForm;
    }

    /** The cancel button. */
    method CancelNewForm()
      modifies this`showNewForm
      ensures !showNewForm
    {
      showNewForm := false;
    }

    /** Typing the name, choosing the template or the language of the new variant. */
    method EditForm(name: string, template: Template, language: Language)
      modifies this`newName, this`newTemplate, this`newLanguage
      ensures newName == name && newTemplate == template && newLanguage == language
    {
      newName, newTemplate, newLanguage := name, template, language;
    }

    /**
     * `handleCreateCV`: a blank name changes nothing; otherwise the variant is added under `id`
     * (never as the default) and the form is emptied and hidden.  When `id` is already taken the
     * write fails and the form is left as it was.
     */
    method HandleCreate(id: string, now: int) returns (created: Option<string>)
      requires db.Valid()
      modifies this`showNewForm, this`newName, db
      ensures db.Valid()
      ensures var request := CreateRequest(old(newName), newTemplate, newLanguage);
        && (request.None? || id in old(db.cvVariants) ==>
              created.None? && db.State() == old(db.State())
              && newName == old(newName) && showNewForm == old(showNewForm))
        && (request.Some? && id !in old(db.cvVariants) ==>
              && created == Some(id)
              && db.State() == old(db.State()).(
                   cvVariants := AddVariantTo(old(db.cvVariants), request.value, id, now),
                   activityLog := old(db.activityLog) + [ActivityEntry("Created CV variant", "cvVariant", Some(id), now)])
              && newName == "" && !showNewForm)
      ensures DefaultIds(db.cvVariants) == DefaultIds(old(db.cvVariants))
    {
      var request := CreateRequest(newName, newTemplate, newLanguage);
      if request.None? {
        return None;
      }
      created := db.AddVariant(request.value, id, now);
      if created.Some? {
        newName := "";
        showNewForm := false;
      }
    }

    /**
     * `handleDelete(id, name, isDefault)`, where `isDefault` is the flag shown on the card and
     * `confirmed` the answer to the confirmation dialog: the default is refused before the dialog
     * opens; otherwise the variant is removed only when the dialog is confirmed.
     */
    method HandleDelete(id: string, isDefault: bool, confirmed: bool, now: int) returns (outcome: DeleteOutcome)
      requires db.Valid()
      modifies db
      ensures db.Valid()
      ensures isDefault ==> outcome == RefusedDefault
      ensures !isDefault && !confirmed ==> outcome == Cancelled
      ensures outcome == RefusedDefault || outcome == Cancelled || outcome.RemoveFailed? ==> db.State() == old(db.State())
      ensures outcome == Removed <==> !isDefault && confirmed && RemoveVariantFrom(old(db.cvVariants), id).Ok?
      ensures outcome == Removed ==> db.State() == old(db.State()).(
        cvVariants := old(db.cvVariants) - {id},
        activityLog := old(db.activityLog) + [ActivityEntry("Removed CV variant", "cvVariant", Some(id), now)])
      ensures DefaultIds(db.cvVariants) == DefaultIds(old(db.cvVariants))
    {
      if isDefault {
        return RefusedDefault;
      }
      if !confirmed {
        return Cancelled;
      }
      var r := db.RemoveVariant(id, now);
      outcome := if r.Ok? then Removed else RemoveFailed(r.message);
    }

    /** `handleSetDefault`: the database's `setDefault`. */
    method HandleSetDefault(id: string, now: int)
      requires db.Valid()
      modifies db
      ensures db.Valid()
      ensures db.State() == old(db.State()).(
        cvVariants := SetDefaultIntended(old(db.cvVariants), id),
        activityLog := old(db.activityLog) + [ActivityEntry("Set default CV variant", "cvVariant", Some(id), now)])
      ensures DefaultIds(db.cvVariants) == if id in db.cvVariants then {id} else {}
    {
      db.SetDefault(id, now);
    }
  }
}
