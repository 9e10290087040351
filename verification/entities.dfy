/**
 * The records of the local database (profile, experiences, projects, skills, education,
 * certifications, CV variants, settings, activity log), the data an `add` receives,
 * and the partial updates an `update` merges.  Dates are milliseconds since the epoch.
 */
module Entities {
  import opened Options

  datatype SkillCategory =
    | Languages | Frameworks | Databases | Devops | Design | ProjectManagement | VersionControl | Modeling

  datatype Language = Fr | En | Ar

  datatype Template = Classic | Modern | Minimal

  datatype ThemeMode = Light | Dark | SystemTheme

  /** The spelling of a template in the source (`'classic'`, ...). */
  function TemplateName(t: Template): (r: string)
    ensures t == Classic <==> r == "classic"
    ensures t == Modern <==> r == "modern"
    ensures t == Minimal <==> r == "minimal"
  {
    match t
    case Classic => "classic"
    case Modern => "modern"
    case Minimal => "minimal"
  }

  datatype Profile = Profile(
    id: string, name: string, title: string, email: string, phone: string, address: string,
    github: string, linkedin: string, portfolio: string, profileImage: Option<string>,
    createdAt: int, updatedAt: int)

  datatype Experience = Experience(
    id: string, role: string, company: string, location: string, startDate: string, endDate: string,
    tasks: seq<string>, technologies: seq<string>, isVisible: bool, order: int,
    createdAt: int, updatedAt: int)

  datatype Project = Project(
    id: string, name: string, date: string, description: string, highlights: seq<string>,
    technologies: seq<string>, link: Option<string>, isFeatured: bool, isVisible: bool, order: int,
    createdAt: int, updatedAt: int)

  datatype Skill = Skill(
    id: string, name: string, category: SkillCategory, level: int, yearsOfExperience: Option<int>,
    isVisible: bool, createdAt: int, updatedAt: int)

  datatype Education = Education(
    id: string, degree: string, institution: string, location: string, startDate: Option<string>,
    endDate: string, description: Option<string>, order: int, createdAt: int, updatedAt: int)

  datatype Certification = Certification(
    id: string, name: string, issuer: string, date: Option<string>, link: Option<string>,
    createdAt: int, updatedAt: int)

  datatype CVVariant = CVVariant(
    id: string, name: string, language: Language, template: Template,
    selectedExperienceIds: seq<string>, selectedProjectIds: seq<string>, selectedSkillIds: seq<string>,
    selectedEducationIds: seq<string>, selectedCertificationIds: seq<string>,
    accentColor: Option<string>, isDefault: bool, createdAt: int, updatedAt: int,
    lastExportedAt: Option<int>)

  datatype AppSettings = AppSettings(
    id: string, themeMode: ThemeMode, language: Language, defaultTemplateId: string, showPhoto: bool)

  /** One activity-log entry: what was done, to which kind of entity, and when. */
  datatype ActivityEntry = ActivityEntry(action: string, entityType: string, entityId: Option<string>, timestamp: int)

  // ---------- what an add receives (the record without id, timestamps and defaulted flags) ----------

  datatype ExperienceInput = ExperienceInput(
    role: string, company: string, location: string, startDate: string, endDate: string,
    tasks: seq<string>, technologies: seq<string>)

  datatype ProjectInput = ProjectInput(
    name: string, date: string, description: string, highlights: seq<string>,
    technologies: seq<string>, link: Option<string>)

  datatype SkillInput = SkillInput(name: string, category: SkillCategory, level: int, yearsOfExperience: Option<int>)

  datatype EducationInput = EducationInput(
    degree: string, institution: string, location: string, startDate: Option<string>,
    endDate: string, description: Option<string>)

  datatype CertificationInput = CertificationInput(name: string, issuer: string, date: Option<string>, link: Option<string>)

  datatype VariantInput = VariantInput(
    name: string, language: Language, template: Template,
    selectedExperienceIds: seq<string>, selectedProjectIds: seq<string>, selectedSkillIds: seq<string>,
    selectedEducationIds: seq<string>, selectedCertificationIds: seq<string>,
    accentColor: Option<string>, lastExportedAt: Option<int>)

  // ---------- partial updates: a `Some` field overwrites, a `None` field is kept ----------

  datatype ProfilePatch = ProfilePatch(
    name: Option<string>, title: Option<string>, email: Option<string>, phone: Option<string>,
    address: Option<string>, github: Option<string>, linkedin: Option<string>, portfolio: Option<string>,
    profileImage: Option<string>)

  datatype ExperiencePatch = ExperiencePatch(
    role: Option<string>, company: Option<string>, location: Option<string>, startDate: Option<string>,
    endDate: Option<string>, tasks: Option<seq<string>>, technologies: Option<seq<string>>,
    isVisible: Option<bool>, order: Option<int>)

  datatype ProjectPatch = ProjectPatch(
    name: Option<string>, date: Option<string>, description: Option<string>, highlights: Option<seq<string>>,
    technologies: Option<seq<string>>, link: Option<string>, isFeatured: Option<bool>,
    isVisible: Option<bool>, order: Option<int>)

  datatype EducationPatch = EducationPatch(
    degree: Option<string>, institution: Option<string>, location: Option<string>, startDate: Option<string>,
    endDate: Option<string>, description: Option<string>, order: Option<int>)

  datatype VariantPatch = VariantPatch(
    name: Option<string>, language: Option<Language>, template: Option<Template>,
    selectedExperienceIds: Option<seq<string>>, selectedProjectIds: Option<seq<string>>,
    selectedSkillIds: Option<seq<string>>, selectedEducationIds: Option<seq<string>>,
    selectedCertificationIds: Option<seq<string>>, accentColor: Option<string>, isDefault: Option<bool>,
    lastExportedAt: Option<int>)

  datatype SettingsPatch = SettingsPatch(
    themeMode: Option<ThemeMode>, language: Option<Language>, defaultTemplateId: Option<string>,
    showPhoto: Option<bool>)

  // ---------- building records from inputs ----------

  /** The record `addExperience` stores: the input, the fresh id, `order`, visible, both timestamps `now`. */
  function NewExperience(d: ExperienceInput, id: string, order: int, now: int): (e: Experience)
    ensures e.id == id && e.order == order && e.isVisible && e.createdAt == now && e.updatedAt == now
    ensures e.role == d.role && e.company == d.company && e.tasks == d.tasks && e.technologies == d.technologies
    ensures e.location == d.location && e.startDate == d.startDate && e.endDate == d.endDate
  {
    Experience(id, d.role, d.company, d.location, d.startDate, d.endDate, d.tasks, d.technologies, true, order, now, now)
  }

  /** The record `addProject` stores: visible and not featured. */
  function NewProject(d: ProjectInput, id: string, order: int, now: int): (p: Project)
    ensures p.id == id && p.order == order && p.isVisible && !p.isFeatured && p.createdAt == now && p.updatedAt == now
    ensures p.name == d.name && p.date == d.date && p.description == d.description && p.link == d.link
    ensures p.highlights == d.highlights && p.technologies == d.technologies
  {
    Project(id, d.name, d.date, d.description, d.highlights, d.technologies, d.link, false, true, order, now, now)
  }

  /** The record `addSkill` stores: visible. */
  function NewSkill(d: SkillInput, id: string, now: int): (s: Skill)
    ensures s.id == id && s.isVisible && s.createdAt == now && s.updatedAt == now
    ensures s.name == d.name && s.category == d.category && s.level == d.level && s.yearsOfExperience == d.yearsOfExperience
  {
    Skill(id, d.name, d.category, d.level, d.yearsOfExperience, true, now, now)
  }

  /** The record `addEducation` stores: an `order`, and no visibility flag at all. */
  function NewEducation(d: EducationInput, id: string, order: int, now: int): (e: Education)
    ensures e.id == id && e.order == order && e.createdAt == now && e.updatedAt == now
    ensures e.degree == d.degree && e.institution == d.institution && e.location == d.location
    ensures e.startDate == d.startDate && e.endDate == d.endDate && e.description == d.description
  {
    Education(id, d.degree, d.institution, d.location, d.startDate, d.endDate, d.description, order, now, now)
  }

  function NewCertification(d: CertificationInput, id: string, now: int): (c: Certification)
    ensures c.id == id && c.createdAt == now && c.updatedAt == now
    ensures c.name == d.name && c.issuer == d.issuer && c.date == d.date && c.link == d.link
  {
    Certification(id, d.name, d.issuer, d.date, d.link, now, now)
  }

  /** The record `addVariant` stores: never the default. */
  function NewVariant(d: VariantInput, id: string, now: int): (v: CVVariant)
    ensures v.id == id && !v.isDefault && v.createdAt == now && v.updatedAt == now
    ensures v.name == d.name && v.language == d.language && v.template == d.template
    ensures v.selectedExperienceIds == d.selectedExperienceIds && v.selectedProjectIds == d.selectedProjectIds
    ensures v.selectedSkillIds == d.selectedSkillIds && v.selectedEducationIds == d.selectedEducationIds
    ensures v.selectedCertificationIds == d.selectedCertificationIds
    ensures v.accentColor == d.accentColor && v.lastExportedAt == d.lastExportedAt
  {
    CVVariant(id, d.name, d.language, d.template, d.selectedExperienceIds, d.selectedProjectIds,
              d.selectedSkillIds, d.selectedEducationIds, d.selectedCertificationIds,
              d.accentColor, false, now, now, d.lastExportedAt)
  }

  // ---------- merging partial updates (`{ ...record, ...data, updatedAt }`) ----------

  function MergeProfile(p: Profile, d: ProfilePatch, now: int): (r: Profile)
    ensures r.id == p.id && r.createdAt == p.createdAt && r.updatedAt == now
    ensures r.name == d.name.GetOr(p.name) && r.email == d.email.GetOr(p.email) && r.phone == d.phone.GetOr(p.phone)
    ensures r.title == d.title.GetOr(p.title) && r.address == d.address.GetOr(p.address)
    ensures r.github == d.github.GetOr(p.github) && r.linkedin == d.linkedin.GetOr(p.linkedin)
    ensures r.portfolio == d.portfolio.GetOr(p.portfolio)
    ensures r.profileImage == (if d.profileImage.Some? then d.profileImage else p.profileImage)
  {
    p.(name := d.name.GetOr(p.name), title := d.title.GetOr(p.title), email := d.email.GetOr(p.email),
       phone := d.phone.GetOr(p.phone), address := d.address.GetOr(p.address), github := d.github.GetOr(p.github),
       linkedin := d.linkedin.GetOr(p.linkedin), portfolio := d.portfolio.GetOr(p.portfolio),
       profileImage := if d.profileImage.Some? then d.profileImage else p.profileImage, updatedAt := now)
  }

  function MergeExperience(e: Experience, d: ExperiencePatch, now: int): (r: Experience)
    ensures r.id == e.id && r.createdAt == e.createdAt && r.updatedAt == now
    ensures r.role == d.role.GetOr(e.role) && r.company == d.company.GetOr(e.company)
    ensures r.location == d.location.GetOr(e.location) && r.startDate == d.startDate.GetOr(e.startDate)
    ensures r.endDate == d.endDate.GetOr(e.endDate) && r.tasks == d.tasks.GetOr(e.tasks)
    ensures r.technologies == d.technologies.GetOr(e.technologies)
    ensures r.isVisible == d.isVisible.GetOr(e.isVisible) && r.order == d.order.GetOr(e.order)
  {
    e.(role := d.role.GetOr(e.role), company := d.company.GetOr(e.company), location := d.location.GetOr(e.location),
       startDate := d.startDate.GetOr(e.startDate), endDate := d.endDate.GetOr(e.endDate),
       tasks := d.tasks.GetOr(e.tasks), technologies := d.technologies.GetOr(e.technologies),
       isVisible := d.isVisible.GetOr(e.isVisible), order := d.order.GetOr(e.order), updatedAt := now)
  }

  function MergeProject(p: Project, d: ProjectPatch, now: int): (r: Project)
    ensures r.id == p.id && r.createdAt == p.createdAt && r.updatedAt == now
    ensures r.name == d.name.GetOr(p.name) && r.date == d.date.GetOr(p.date)
    ensures r.description == d.description.GetOr(p.description) && r.highlights == d.highlights.GetOr(p.highlights)
    ensures r.technologies == d.technologies.GetOr(p.technologies)
    ensures r.link == (if d.link.Some? then d.link else p.link)
    ensures r.isFeatured == d.isFeatured.GetOr(p.isFeatured) && r.isVisible == d.isVisible.GetOr(p.isVisible)
    ensures r.order == d.order.GetOr(p.order)
  {
    p.(name := d.name.GetOr(p.name), date := d.date.GetOr(p.date), description := d.description.GetOr(p.description),
       highlights := d.highlights.GetOr(p.highlights), technologies := d.technologies.GetOr(p.technologies),
       link := if d.link.Some? then d.link else p.link, isFeatured := d.isFeatured.GetOr(p.isFeatured),
       isVisible := d.isVisible.GetOr(p.isVisible), order := d.order.GetOr(p.order), updatedAt := now)
  }

  function MergeEducation(e: Education, d: EducationPatch, now: int): (r: Education)
    ensures r.id == e.id && r.createdAt == e.createdAt && r.updatedAt == now
    ensures r.degree == d.degree.GetOr(e.degree) && r.institution == d.institution.GetOr(e.institution)
    ensures r.location == d.location.GetOr(e.location)
    ensures r.startDate == (if d.startDate.Some? then d.startDate else e.startDate)
    ensures r.endDate == d.endDate.GetOr(e.endDate)
    ensures r.description == (if d.description.Some? then d.description else e.description)
    ensures r.order == d.order.GetOr(e.order)
  {
    e.(degree := d.degree.GetOr(e.degree), institution := d.institution.GetOr(e.institution),
       location := d.location.GetOr(e.location), startDate := if d.startDate.Some? then d.startDate else e.startDate,
       endDate := d.endDate.GetOr(e.endDate), description := if d.description.Some? then d.description else e.description,
       order := d.order.GetOr(e.order), updatedAt := now)
  }

  function MergeVariant(v: CVVariant, d: VariantPatch, now: int): (r: CVVariant)
    ensures r.id == v.id && r.createdAt == v.createdAt && r.updatedAt == now
    ensures r.isDefault == d.isDefault.GetOr(v.isDefault)
    ensures r.name == d.name.GetOr(v.name) && r.language == d.language.GetOr(v.language)
    ensures r.template == d.template.GetOr(v.template)
    ensures r.selectedExperienceIds == d.selectedExperienceIds.GetOr(v.selectedExperienceIds)
    ensures r.selectedProjectIds == d.selectedProjectIds.GetOr(v.selectedProjectIds)
    ensures r.selectedSkillIds == d.selectedSkillIds.GetOr(v.selectedSkillIds)
    ensures r.selectedEducationIds == d.selectedEducationIds.GetOr(v.selectedEducationIds)
    ensures r.selectedCertificationIds == d.selectedCertificationIds.GetOr(v.selectedCertificationIds)
    ensures r.accentColor == (if d.accentColor.Some? then d.accentColor else v.accentColor)
    ensures r.lastExportedAt == (if d.lastExportedAt.Some? then d.lastExportedAt else v.lastExportedAt)
  {
    v.(name := d.name.GetOr(v.name), language := d.language.GetOr(v.language), template := d.template.GetOr(v.template),
       selectedExperienceIds := d.selectedExperienceIds.GetOr(v.selectedExperienceIds),
       selectedProjectIds := d.selectedProjectIds.GetOr(v.selectedProjectIds),
       selectedSkillIds := d.selectedSkillIds.GetOr(v.selectedSkillIds),
       selectedEducationIds := d.selectedEducationIds.GetOr(v.selectedEducationIds),
       selectedCertificationIds := d.selectedCertificationIds.GetOr(v.selectedCertificationIds),
       accentColor := if d.accentColor.Some? then d.accentColor else v.accentColor,
       isDefault := d.isDefault.GetOr(v.isDefault),
       lastExportedAt := if d.lastExportedAt.Some? then d.lastExportedAt else v.lastExportedAt,
       updatedAt := now)
  }

  /** Settings carry no timestamp: the merge touches exactly the given fields. */
  function MergeSettings(s: AppSettings, d: SettingsPatch): (r: AppSettings)
    ensures r.id == s.id
    ensures r.themeMode == d.themeMode.GetOr(s.themeMode) && r.language == d.language.GetOr(s.language)
    ensures r.defaultTemplateId == d.defaultTemplateId.GetOr(s.defaultTemplateId)
    ensures r.showPhoto == d.showPhoto.GetOr(s.showPhoto)
    ensures d == SettingsPatch(None, None, None, None) ==> r == s
  {
    s.(themeMode := d.themeMode.GetOr(s.themeMode), language := d.language.GetOr(s.language),
       defaultTemplateId := d.defaultTemplateId.GetOr(s.defaultTemplateId), showPhoto := d.showPhoto.GetOr(s.showPhoto))
  }

  const EmptyExperiencePatch := ExperiencePatch(None, None, None, None, None, None, None, None, None)

  /** Merging a patch keeps the identity, and an empty patch changes nothing except `updatedAt`. */
  lemma MergeExperienceEmpty(e: Experience, now: int)
    ensures MergeExperience(e, EmptyExperiencePatch, now) == e.(updatedAt := now)
  {
  }

  /** Applying the same patch twice gives the same record as applying it once (at the same time). */
  lemma MergeExperienceIdempotent(e: Experience, d: ExperiencePatch, now: int)
    ensures MergeExperience(MergeExperience(e, d, now), d, now) == MergeExperience(e, d, now)
  {
  }
}
