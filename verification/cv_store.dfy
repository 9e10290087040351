/**
 * The document store of the CV editor: one `CVData` document and its `CVSettings`.  Every action
 * is a pure function from the old state to the new one; the random id of an added entry is a
 * parameter.
 */
module CVStore {
  import opened Options
  import opened Seqs
  import opened Entities

  datatype PersonalInfo = PersonalInfo(
    name: string, title: string, phone: string, email: string, address: string,
    github: string, linkedin: string, portfolio: string, profileImage: Option<string>)

  /** A `Partial<PersonalInfo>`: `None` is a field the caller left out. */
  datatype PersonalInfoPatch = PersonalInfoPatch(
    name: Option<string>, title: Option<string>, phone: Option<string>, email: Option<string>,
    address: Option<string>, github: Option<string>, linkedin: Option<string>, portfolio: Option<string>,
    profileImage: Option<string>)

  /** The eight skill lists, one per category. */
  datatype TechnicalSkills = TechnicalSkills(
    languages: seq<string>, frameworks: seq<string>, databases: seq<string>, devops: seq<string>,
    projectManagement: seq<string>, design: seq<string>, versionControl: seq<string>, modeling: seq<string>)
  {
    /** `skills[category]`. */
    function Get(c: SkillCategory): seq<string> {
      match c
      case Languages => languages
      case Frameworks => frameworks
      case Databases => databases
      case Devops => devops
      case ProjectManagement => projectManagement
      case Design => design
      case VersionControl => versionControl
      case Modeling => modeling
    }

    /** `{ ...skills, [category]: list }`: one list replaced, the seven others kept. */
    function With(c: SkillCategory, list: seq<string>): (r: TechnicalSkills)
      ensures r.Get(c) == list
      ensures forall d :: d != c ==> r.Get(d) == Get(d)
    {
      match c
      case Languages => this.(languages := list)
      case Frameworks => this.(frameworks := list)
      case Databases => this.(databases := list)
      case Devops => this.(devops := list)
      case ProjectManagement => this.(projectManagement := list)
      case Design => this.(design := list)
      case VersionControl => this.(versionControl := list)
      case Modeling => this.(modeling := list)
    }
  }

  datatype ExperienceEntry = ExperienceEntry(
    id: string, role: string, company: string, location: string, startDate: string, endDate: string,
    tasks: seq<string>, technologies: seq<string>)

  datatype ExperienceEntryPatch = ExperienceEntryPatch(
    id: Option<string>, role: Option<string>, company: Option<string>, location: Option<string>,
    startDate: Option<string>, endDate: Option<string>, tasks: Option<seq<string>>,
    technologies: Option<seq<string>>)

  datatype EducationEntry = EducationEntry(
    id: string, degree: string, institution: string, location: Option<string>, startDate: Option<string>,
    endDate: string, description: Option<string>)

  datatype EducationEntryPatch = EducationEntryPatch(
    id: Option<string>, degree: Option<string>, institution: Option<string>, location: Option<string>,
    startDate: Option<string>, endDate: Option<string>, description: Option<string>)

  datatype ProjectEntry = ProjectEntry(
    id: string, name: string, date: string, description: string, highlights: seq<string>,
    technologies: seq<string>, link: Option<string>)

  datatype ProjectEntryPatch = ProjectEntryPatch(
    id: Option<string>, name: Option<string>, date: Option<string>, description: Option<string>,
    highlights: Option<seq<string>>, technologies: Option<seq<string>>, link: Option<string>)

  datatype LanguageLevel = Native | Fluent | Advanced | Intermediate | Beginner

  datatype LanguageEntry = LanguageEntry(name: string, level: LanguageLevel, code: Option<string>)

  datatype CertificationEntry = CertificationEntry(name: string, link: Option<string>)

  /** The eight parts of a CV document. */
  datatype CVData = CVData(
    personalInfo: PersonalInfo, skills: TechnicalSkills, experience: seq<ExperienceEntry>,
    education: seq<EducationEntry>, projects: seq<ProjectEntry>, certifications: seq<CertificationEntry>,
    softSkills: seq<string>, languages: seq<LanguageEntry>)

  datatype CVSettings = CVSettings(
    templateId: Template, themeMode: ThemeMode, accentColor: string, language: Language, showPhoto: bool)

  datatype CVSettingsPatch = CVSettingsPatch(
    templateId: Option<Template>, themeMode: Option<ThemeMode>, accentColor: Option<string>,
    language: Option<Language>, showPhoto: Option<bool>)

  /** What the store holds. */
  datatype StoreState = StoreState(cv: CVData, settings: CVSettings)

  // ----- The defaults the store starts from and `resetCV` restores -----

  const DefaultSettings: CVSettings := CVSettings(Classic, Light, "#000000", Fr, true)

  const DefaultCV: CVData := CVData(
    PersonalInfo("Keltoum Malouki", "Développeuse Web Full Stack", "+212 606232697", "keltoummalouki@gmail.com",
                 "Casablanca (mobilité)", "keltoummalouki", "keltoummalouki", "keltoummalouki.com", None),
    TechnicalSkills(
      ["C", "HTML5", "CSS3", "SQL", "NoSQL", "JavaScript", "TypeScript", "PHP"],
      ["Laravel", "Node.js", "React", "Next.js", "Express.js", "NestJS", "Tailwind CSS", "GraphQL"],
      ["MySQL", "PostgreSQL", "MongoDB"],
      ["Docker", "CI/CD (GitHub Actions, GitLab)", "Tests automatisés"],
      ["Méthodes agiles", "Jira"],
      ["Figma", "Canva", "Adobe XD"],
      ["Git", "GitHub", "GitLab"],
      ["Merise", "UML"]),
    [ExperienceEntry("1", "Stagiaire Développeuse Web", "Caisse Manager", "Rabat", "Juin", "Août 2025",
                     ["Développement d'un site vitrine officiel",
                      "Réalisation de maquettes et intégration front-end avec React, Next.js et Tailwind CSS.",
                      "Mise en place d'animations web interactives."],
                     ["Next.js", "React.js", "TailwindCSS", "GSAP", "Framer Motion", "Shadcn UI", "Git/GitHub"])],
    [EducationEntry("1", "Formation Développement Full Stack YouCode - UM6P, Campus Youssoufia", "YouCode - UM6P",
                    None, None, "2024- Présent", Some("Formation pratique en développement web front-end et back-end")),
     EducationEntry("2", "Baccalauréat en Sciences physiques et chimiques", "Lycée Okba Bnou Nafiaa",
                    Some("Casablanca"), None, "2023 - 2024", None)],
    [ProjectEntry("1", "TruckFlow", "Décembre 2025",
                  "Développement d'une solution de gestion de flotte routière permettant de :",
                  ["Gérer le parc automobile (camions, remorques), les chauffeurs et l'assignation des trajets",
                   "Suivre la maintenance préventive, la consommation et générer les ordres de mission (PDF)"],
                  ["React.js", "Redux", "Node.js", "Express.js", "MongoDB", "Docker"],
                  Some("https://github.com/Keltoummalouki/TruckFlow")),
     ProjectEntry("2", "Réservez-Moi", "Avril 2025",
                  "Développement d'un système permettant aux utilisateurs de :",
                  ["Réserver facilement des services dans plusieurs secteurs (ex : beauté, réparation, etc.)",
                   "Consulter les disponibilités et gérer leurs réservations"],
                  ["Laravel", "MySQL", "HTML", "Tailwind CSS", "JavaScript", "UML", "Jira", "Git/GitHub"],
                  Some("https://github.com/Keltoummalouki/Reservez-Moi"))],
    [CertificationEntry("Docker Foundations Professional LinkedIn Certificate",
                        Some("https://www.linkedin.com/learning/certificates/8556c209c6898f55066429ef88fa4d13bed6d4bdb38b594b6d7dbc02216898b2?trk=share_certificate"))],
    ["Gestion du temps", "Adaptabilité - Flexibilité", "Travail en équipe"],
    [LanguageEntry("Arabe", Native, None), LanguageEntry("Français", Intermediate, Some("B1")),
     LanguageEntry("Anglais", Beginner, Some("A2"))])

  /** The state before any action (and after `resetCV`). */
  const InitialState: StoreState := StoreState(DefaultCV, DefaultSettings)

  // ----- Object spread `{ ...a, ...b }`: a field of `b` wins when `b` has it -----

  function Over<T>(current: T, patch: Option<T>): T {
    if patch.Some? then patch.value else current
  }

  /** The field of `{ ...a, ...b }` for two partial updates. */
  function Latest<T>(a: Option<T>, b: Option<T>): Option<T> {
    if b.Some? then b else a
  }

  function MergePersonalInfo(p: PersonalInfo, d: PersonalInfoPatch): PersonalInfo {
    PersonalInfo(Over(p.name, d.name), Over(p.title, d.title), Over(p.phone, d.phone), Over(p.email, d.email),
                 Over(p.address, d.address), Over(p.github, d.github), Over(p.linkedin, d.linkedin),
                 Over(p.portfolio, d.portfolio), if d.profileImage.Some? then d.profileImage else p.profileImage)
  }

  /** `{ ...a, ...b }` of two partial updates. */
  function CombinePersonalInfo(a: PersonalInfoPatch, b: PersonalInfoPatch): PersonalInfoPatch {
    PersonalInfoPatch(Latest(a.name, b.name), Latest(a.title, b.title), Latest(a.phone, b.phone),
                      Latest(a.email, b.email), Latest(a.address, b.address), Latest(a.github, b.github),
                      Latest(a.linkedin, b.linkedin), Latest(a.portfolio, b.portfolio),
                      Latest(a.profileImage, b.profileImage))
  }

  const NoPersonalInfo: PersonalInfoPatch := PersonalInfoPatch(None, None, None, None, None, None, None, None, None)

  function MergeExperienceEntry(e: ExperienceEntry, d: ExperienceEntryPatch): ExperienceEntry {
    ExperienceEntry(Over(e.id, d.id), Over(e.role, d.role), Over(e.company, d.company), Over(e.location, d.location),
                    Over(e.startDate, d.startDate), Over(e.endDate, d.endDate), Over(e.tasks, d.tasks),
                    Over(e.technologies, d.technologies))
  }

  function MergeEducationEntry(e: EducationEntry, d: EducationEntryPatch): EducationEntry {
    EducationEntry(Over(e.id, d.id), Over(e.degree, d.degree), Over(e.institution, d.institution),
                   if d.location.Some? then d.location else e.location,
                   if d.startDate.Some? then d.startDate else e.startDate,
                   Over(e.endDate, d.endDate),
                   if d.description.Some? then d.description else e.description)
  }

  function MergeProjectEntry(p: ProjectEntry, d: ProjectEntryPatch): ProjectEntry {
    ProjectEntry(Over(p.id, d.id), Over(p.name, d.name), Over(p.date, d.date), Over(p.description, d.description),
                 Over(p.highlights, d.highlights), Over(p.technologies, d.technologies),
                 if d.link.Some? then d.link else p.link)
  }

  function MergeSettings(s: CVSettings, d: CVSettingsPatch): CVSettings {
    CVSettings(Over(s.templateId, d.templateId), Over(s.themeMode, d.themeMode), Over(s.accentColor, d.accentColor),
               Over(s.language, d.language), Over(s.showPhoto, d.showPhoto))
  }

  /** `{ ...skills, ...patch }`: the categories in `patch` are replaced, the others kept. */
  function MergeSkills(s: TechnicalSkills, patch: map<SkillCategory, seq<string>>): (r: TechnicalSkills)
    ensures forall c :: r.Get(c) == if c in patch then patch[c] else s.Get(c)
  {
    TechnicalSkills(
      if Languages in patch then patch[Languages] else s.languages,
      if Frameworks in patch then patch[Frameworks] else s.frameworks,
      if Databases in patch then patch[Databases] else s.databases,
      if Devops in patch then patch[Devops] else s.devops,
      if ProjectManagement in patch then patch[ProjectManagement] else s.projectManagement,
      if Design in patch then patch[Design] else s.design,
      if VersionControl in patch then patch[VersionControl] else s.versionControl,
      if Modeling in patch then patch[Modeling] else s.modeling)
  }

  /** A field the update leaves out keeps its value, and one it carries takes the new value. */
  lemma MergePersonalInfoFields(p: PersonalInfo, d: PersonalInfoPatch)
    ensures var r := MergePersonalInfo(p, d);
      && (d.name.None? ==> r.name == p.name) && (d.name.Some? ==> r.name == d.name.value)
      && (d.email.None? ==> r.email == p.email) && (d.email.Some? ==> r.email == d.email.value)
      && (d.title.None? ==> r.title == p.title) && (d.title.Some? ==> r.title == d.title.value)
      && (d.phone.None? ==> r.phone == p.phone) && (d.phone.Some? ==> r.phone == d.phone.value)
      && (d.address.None? ==> r.address == p.address) && (d.address.Some? ==> r.address == d.address.value)
      && (d.github.None? ==> r.github == p.github) && (d.github.Some? ==> r.github == d.github.value)
      && (d.linkedin.None? ==> r.linkedin == p.linkedin) && (d.linkedin.Some? ==> r.linkedin == d.linkedin.value)
      && (d.portfolio.None? ==> r.portfolio == p.portfolio) && (d.portfolio.Some? ==> r.portfolio == d.portfolio.value)
      && (d.profileImage.None? ==> r.profileImage == p.profileImage)
      && (d.profileImage.Some? ==> r.profileImage == d.profileImage)
  {
  }

  /** Spreading nothing changes nothing. */
  lemma MergePersonalInfoEmpty(p: PersonalInfo)
    ensures MergePersonalInfo(p, NoPersonalInfo) == p
  {
  }

  /** Two updates in a row are one update with the spread of both; in particular an update repeated is applied once. */
  lemma MergePersonalInfoCompose(p: PersonalInfo, a: PersonalInfoPatch, b: PersonalInfoPatch)
    ensures MergePersonalInfo(MergePersonalInfo(p, a), b) == MergePersonalInfo(p, CombinePersonalInfo(a, b))
    ensures MergePersonalInfo(MergePersonalInfo(p, a), a) == MergePersonalInfo(p, a)
  {
  }

  // ----- The list idioms of the reducer -----

  /** `s.map(x => matches(x) ? f(x) : x)`. */
  function UpdateWhere<T>(s: seq<T>, matches: T -> bool, f: T -> T): (r: seq<T>)
    ensures |r| == |s|
    ensures forall i :: 0 <= i < |s| ==> r[i] == if matches(s[i]) then f(s[i]) else s[i]
    decreases |s|
  {
    if s == [] then []
    else [if matches(s[0]) then f(s[0]) else s[0]] + UpdateWhere(s[1..], matches, f)
  }

  /** A map that matches nothing returns the list unchanged. */
  lemma UpdateWhereNone<T>(s: seq<T>, matches: T -> bool, f: T -> T)
    requires forall i :: 0 <= i < |s| ==> !matches(s[i])
    ensures UpdateWhere(s, matches, f) == s
  {
  }

  /** Filtering out an element appended after entries that all pass gives back the entries. */
  lemma {:induction false} FilterDropsAppended<T(!new)>(s: seq<T>, x: T, p: T -> bool)
    requires forall y :: y in s ==> p(y)
    requires !p(x)
    ensures Filter(s + [x], p) == s
  {
    FilterAppend(s, [x], p);
    FilterKeepsAll(s, p);
    assert Filter([x], p) == [] by {
      assert [x][1..] == [];
    }
  }

  // ----- Personal info, skills -----

  /** `updatePersonalInfo`: the personal info takes the supplied fields; every other part and the settings are kept. */
  function UpdatePersonalInfo(st: StoreState, d: PersonalInfoPatch): (r: StoreState)
    ensures r.settings == st.settings
    ensures r.cv.(personalInfo := st.cv.personalInfo) == st.cv
    ensures r.cv.personalInfo == MergePersonalInfo(st.cv.personalInfo, d)
  {
    st.(cv := st.cv.(personalInfo := MergePersonalInfo(st.cv.personalInfo, d)))
  }

  /** `updateSkills`: only the supplied categories are replaced. */
  function UpdateSkills(st: StoreState, patch: map<SkillCategory, seq<string>>): (r: StoreState)
    ensures r.settings == st.settings
    ensures r.cv.(skills := st.cv.skills) == st.cv
    ensures forall c :: c !in patch ==> r.cv.skills.Get(c) == st.cv.skills.Get(c)
    ensures forall c :: c in patch ==> r.cv.skills.Get(c) == patch[c]
  {
    st.(cv := st.cv.(skills := MergeSkills(st.cv.skills, patch)))
  }

  // ----- Experience -----

  /** `addExperience`: one entry appended at the end, with the given fields and the new id. */
  function AddExperience(st: StoreState, e: ExperienceEntry, id: string): (r: StoreState)
    ensures r.settings == st.settings
    ensures r.cv.(experience := st.cv.experience) == st.cv
    ensures |r.cv.experience| == |st.cv.experience| + 1
    ensures r.cv.experience[..|st.cv.experience|] == st.cv.experience
    ensures r.cv.experience[|st.cv.experience|] == e.(id := id)
  {
    st.(cv := st.cv.(experience := st.cv.experience + [e.(id := id)]))
  }

  /** `updateExperience`: every entry with that id takes the update, the others are kept, and the length and order do not change. */
  function UpdateExperience(st: StoreState, id: string, d: ExperienceEntryPatch): (r: StoreState)
    ensures r.settings == st.settings
    ensures r.cv.(experience := st.cv.experience) == st.cv
    ensures |r.cv.experience| == |st.cv.experience|
    ensures forall i :: 0 <= i < |st.cv.experience| && st.cv.experience[i].id != id ==>
      r.cv.experience[i] == st.cv.experience[i]
    ensures forall i :: 0 <= i < |st.cv.experience| && st.cv.experience[i].id == id ==>
      r.cv.experience[i] == MergeExperienceEntry(st.cv.experience[i], d)
    ensures (forall i :: 0 <= i < |st.cv.experience| ==> st.cv.experience[i].id != id) ==> r == st
  {
    var list := UpdateWhere(st.cv.experience, (x: ExperienceEntry) => x.id == id,
                            (x: ExperienceEntry) => MergeExperienceEntry(x, d));
    assert (forall i :: 0 <= i < |st.cv.experience| ==> st.cv.experience[i].id != id) ==> list == st.cv.experience;
    st.(cv := st.cv.(experience := list))
  }

  /** `removeExperience`: every entry with that id is dropped, the others kept in their order. */
  function RemoveExperience(st: StoreState, id: string): (r: StoreState)
    ensures r.settings == st.settings
    ensures r.cv.(experience := st.cv.experience) == st.cv
    ensures forall x :: x in r.cv.experience <==> x in st.cv.experience && x.id != id
    ensures IsSubsequence(r.cv.experience, st.cv.experience)
    ensures forall x :: multiset(r.cv.experience)[x] == if x.id != id then multiset(st.cv.experience)[x] else 0
  {
    var list := Filter(st.cv.experience, (x: ExperienceEntry) => x.id != id);
    FilterIsSubsequence(st.cv.experience, (x: ExperienceEntry) => x.id != id);
    FilterMultiset(st.cv.experience, (x: ExperienceEntry) => x.id != id);
    st.(cv := st.cv.(experience := list))
  }

  /** Removing the id just given to an added entry undoes the add, when no earlier entry had that id. */
  lemma RemoveUndoesAddExperience(st: StoreState, e: ExperienceEntry, id: string)
    requires forall x :: x in st.cv.experience ==> x.id != id
    ensures RemoveExperience(AddExperience(st, e, id), id) == st
  {
    FilterDropsAppended(st.cv.experience, e.(id := id), (x: ExperienceEntry) => x.id != id);
  }

  // ----- Education -----

  /** `addEducation`: one entry appended at the end, with the given fields and the new id. */
  function AddEducation(st: StoreState, e: EducationEntry, id: string): (r: StoreState)
    ensures r.settings == st.settings
    ensures r.cv.(education := st.cv.education) == st.cv
    ensures |r.cv.education| == |st.cv.education| + 1
    ensures r.cv.education[..|st.cv.education|] == st.cv.education
    ensures r.cv.education[|st.cv.education|] == e.(id := id)
  {
    st.(cv := st.cv.(education := st.cv.education + [e.(id := id)]))
  }

  /** `updateEducation`: every entry with that id takes the update, the others are kept, and the length and order do not change. */
  function UpdateEducation(st: StoreState, id: string, d: EducationEntryPatch): (r: StoreState)
    ensures r.settings == st.settings
    ensures r.cv.(education := st.cv.education) == st.cv
    ensures |r.cv.education| == |st.cv.education|
    ensures forall i :: 0 <= i < |st.cv.education| && st.cv.education[i].id != id ==>
      r.cv.education[i] == st.cv.education[i]
    ensures forall i :: 0 <= i < |st.cv.education| && st.cv.education[i].id == id ==>
      r.cv.education[i] == MergeEducationEntry(st.cv.education[i], d)
    ensures (forall i :: 0 <= i < |st.cv.education| ==> st.cv.education[i].id != id) ==> r == st
  {
    var list := UpdateWhere(st.cv.education, (x: EducationEntry) => x.id == id,
                            (x: EducationEntry) => MergeEducationEntry(x, d));
    assert (forall i :: 0 <= i < |st.cv.education| ==> st.cv.education[i].id != id) ==> list == st.cv.education;
    st.(cv := st.cv.(education := list))
  }

  /** `removeEducation`: every entry with that id is dropped, the others kept in their order. */
  function RemoveEducation(st: StoreState, id: string): (r: StoreState)
    ensures r.settings == st.settings
    ensures r.cv.(education := st.cv.education) == st.cv
    ensures forall x :: x in r.cv.education <==> x in st.cv.education && x.id != id
    ensures IsSubsequence(r.cv.education, st.cv.education)
    ensures forall x :: multiset(r.cv.education)[x] == if x.id != id then multiset(st.cv.education)[x] else 0
  {
    var list := Filter(st.cv.education, (x: EducationEntry) => x.id != id);
    FilterIsSubsequence(st.cv.education, (x: EducationEntry) => x.id != id);
    FilterMultiset(st.cv.education, (x: EducationEntry) => x.id != id);
    st.(cv := st.cv.(education := list))
  }

  /** Removing the id just given to an added entry undoes the add, when no earlier entry had that id. */
  lemma RemoveUndoesAddEducation(st: StoreState, e: EducationEntry, id: string)
    requires forall x :: x in st.cv.education ==> x.id != id
    ensures RemoveEducation(AddEducation(st, e, id), id) == st
  {
    FilterDropsAppended(st.cv.education, e.(id := id), (x: EducationEntry) => x.id != id);
  }

  // ----- Projects -----

  /** `addProject`: one entry appended at the end, with the given fields and the new id. */
  function AddProject(st: StoreState, p: ProjectEntry, id: string): (r: StoreState)
    ensures r.settings == st.settings
    ensures r.cv.(projects := st.cv.projects) == st.cv
    ensures |r.cv.projects| == |st.cv.projects| + 1
    ensures r.cv.projects[..|st.cv.projects|] == st.cv.projects
    ensures r.cv.projects[|st.cv.projects|] == p.(id := id)
  {
    st.(cv := st.cv.(projects := st.cv.projects + [p.(id := id)]))
  }

  /** `updateProject`: every entry with that id takes the update, the others are kept, and the length and order do not change. */
  function UpdateProject(st: StoreState, id: string, d: ProjectEntryPatch): (r: StoreState)
    ensures r.settings == st.settings
    ensures r.cv.(projects := st.cv.projects) == st.cv
    ensures |r.cv.projects| == |st.cv.projects|
    ensures forall i :: 0 <= i < |st.cv.projects| && st.cv.projects[i].id != id ==>
      r.cv.projects[i] == st.cv.projects[i]
    ensures forall i :: 0 <= i < |st.cv.projects| && st.cv.projects[i].id == id ==>
      r.cv.projects[i] == MergeProjectEntry(st.cv.projects[i], d)
    ensures (forall i :: 0 <= i < |st.cv.projects| ==> st.cv.projects[i].id != id) ==> r == st
  {
    var list := UpdateWhere(st.cv.projects, (x: ProjectEntry) => x.id == id,
                            (x: ProjectEntry) => MergeProjectEntry(x, d));
    assert (forall i :: 0 <= i < |st.cv.projects| ==> st.cv.projects[i].id != id) ==> list == st.cv.projects;
    st.(cv := st.cv.(projects := list))
  }

  /** `removeProject`: every entry with that id is dropped, the others kept in their order. */
  function RemoveProject(st: StoreState, id: string): (r: StoreState)
    ensures r.settings == st.settings
    ensures r.cv.(projects := st.cv.projects) == st.cv
    ensures forall x :: x in r.cv.projects <==> x in st.cv.projects && x.id != id
    ensures IsSubsequence(r.cv.projects, st.cv.projects)
    ensures forall x :: multiset(r.cv.projects)[x] == if x.id != id then multiset(st.cv.projects)[x] else 0
  {
    var list := Filter(st.cv.projects, (x: ProjectEntry) => x.id != id);
    FilterIsSubsequence(st.cv.projects, (x: ProjectEntry) => x.id != id);
    FilterMultiset(st.cv.projects, (x: ProjectEntry) => x.id != id);
    st.(cv := st.cv.(projects := list))
  }

  /** Removing the id just given to an added entry undoes the add, when no earlier entry had that id. */
  lemma RemoveUndoesAddProject(st: StoreState, p: ProjectEntry, id: string)
    requires forall x :: x in st.cv.projects ==> x.id != id
    ensures RemoveProject(AddProject(st, p, id), id) == st
  {
    FilterDropsAppended(st.cv.projects, p.(id := id), (x: ProjectEntry) => x.id != id);
  }

  // ----- Whole lists, settings, import and reset -----

  /** `updateCertifications`: the list is replaced as given. */
  function UpdateCertifications(st: StoreState, certifications: seq<CertificationEntry>): (r: StoreState)
    ensures r.settings == st.settings
    ensures r.cv == st.cv.(certifications := certifications)
  {
    st.(cv := st.cv.(certifications := certifications))
  }

  /** `updateSoftSkills`: the list is replaced as given. */
  function UpdateSoftSkills(st: StoreState, softSkills: seq<string>): (r: StoreState)
    ensures r.settings == st.settings
    ensures r.cv == st.cv.(softSkills := softSkills)
  {
    st.(cv := st.cv.(softSkills := softSkills))
  }

  /** `updateLanguages`: the list is replaced as given. */
  function UpdateLanguages(st: StoreState, languages: seq<LanguageEntry>): (r: StoreState)
    ensures r.settings == st.settings
    ensures r.cv == st.cv.(languages := languages)
  {
    st.(cv := st.cv.(languages := languages))
  }

  /** `updateSettings`: the supplied settings are taken, the document is not touched. */
  function UpdateSettings(st: StoreState, d: CVSettingsPatch): (r: StoreState)
    ensures r.cv == st.cv
    ensures d.templateId.Some? ==> r.settings.templateId == d.templateId.value
    ensures d.templateId.None? ==> r.settings.templateId == st.settings.templateId
    ensures d.themeMode.Some? ==> r.settings.themeMode == d.themeMode.value
    ensures d.themeMode.None? ==> r.settings.themeMode == st.settings.themeMode
    ensures d.accentColor.Some? ==> r.settings.accentColor == d.accentColor.value
    ensures d.accentColor.None? ==> r.settings.accentColor == st.settings.accentColor
    ensures d.language.Some? ==> r.settings.language == d.language.value
    ensures d.language.None? ==> r.settings.language == st.settings.language
    ensures d.showPhoto.Some? ==> r.settings.showPhoto == d.showPhoto.value
    ensures d.showPhoto.None? ==> r.settings.showPhoto == st.settings.showPhoto
  {
    st.(settings := MergeSettings(st.settings, d))
  }

  /** `setTemplate`: only the template changes. */
  function SetTemplate(st: StoreState, t: Template): (r: StoreState)
    ensures r.cv == st.cv
    ensures r.settings == st.settings.(templateId := t)
  {
    st.(settings := st.settings.(templateId := t))
  }

  /** `setTheme`: only the theme changes. */
  function SetTheme(st: StoreState, m: ThemeMode): (r: StoreState)
    ensures r.cv == st.cv
    ensures r.settings == st.settings.(themeMode := m)
  {
    st.(settings := st.settings.(themeMode := m))
  }

  /** `setTemplate` and `setTheme` are `updateSettings` with a one-field update. */
  lemma SetTemplateThemeAreUpdates(st: StoreState, t: Template, m: ThemeMode)
    ensures SetTemplate(st, t) == UpdateSettings(st, CVSettingsPatch(Some(t), None, None, None, None))
    ensures SetTheme(st, m) == UpdateSettings(st, CVSettingsPatch(None, Some(m), None, None, None))
  {
  }

  /** `importCV`: the document is replaced wholesale; the settings stay. */
  function ImportCV(st: StoreState, data: CVData): (r: StoreState)
    ensures r.cv == data
    ensures r.settings == st.settings
  {
    st.(cv := data)
  }

  /** `resetCV`: both the document and the settings go back to the defaults, whatever the state was. */
  function ResetCV(st: StoreState): (r: StoreState)
    ensures r == InitialState
    ensures r.settings.templateId == Classic && r.settings.accentColor == "#000000"
  {
    InitialState
  }

  /** After an import, only the imported document is visible; the previous one is forgotten, and a reset forgets both. */
  lemma ImportForgets(st: StoreState, a: CVData, b: CVData)
    ensures ImportCV(ImportCV(st, a), b) == ImportCV(st, b)
    ensures ResetCV(ImportCV(st, a)) == ResetCV(st)
  {
  }
}
