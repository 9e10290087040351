/**
 * How the preview and share pages put a CV together: the variant to show, the records its
 * selection lists keep, the link to share it, the JSON backup, and the export time written back.
 * The tables arrive as their queries return them (experiences, projects and education sorted by
 * `order`, the variants in key order).
 */
module Composer {
  import opened Options
  import opened Seqs
  import opened Text
  import opened Entities
  import opened FileNames
  import opened CareerDb

  /** What a template renders: the profile and five collections. */
  datatype CVSnapshot = CVSnapshot(
    profile: Profile, experiences: seq<Experience>, projects: seq<Project>, skills: seq<Skill>,
    education: seq<Education>, certifications: seq<Certification>)

  /** The first element satisfying `p`, as `filter(p).first()` returns it. */
  function FirstWhere<T>(s: seq<T>, p: T -> bool): (r: Option<T>)
    ensures r.None? <==> forall i :: 0 <= i < |s| ==> !p(s[i])
    ensures r.Some? ==> exists i :: 0 <= i < |s| && s[i] == r.value && p(s[i]) && forall j :: 0 <= j < i ==> !p(s[j])
    decreases |s|
  {
    if s == [] then None
    else if p(s[0]) then Some(s[0])
    else
      var r := FirstWhere(s[1..], p);
      assert r.Some? ==> exists i :: 0 <= i < |s[1..]| && s[1..][i] == r.value && p(s[1..][i])
                               && forall j :: 0 <= j < i ==> !p(s[1..][j]);
      assert forall i :: 1 <= i < |s| ==> s[i] == s[1..][i - 1];
      r
  }

  /** A route parameter is used only when it is a non-empty string (`if (variantId)`). */
  predicate HasRoute(routeId: Option<string>) {
    routeId.Some? && routeId.value != ""
  }

  /**
   * The variant to show: the one stored under the route id, or, without a route id, the first
   * default variant.  Nothing, when there is no such variant.
   */
  function ChooseVariant(variants: seq<CVVariant>, routeId: Option<string>): (r: Option<CVVariant>)
    ensures r.Some? ==> r.value in variants
    ensures HasRoute(routeId) ==> (r.Some? <==> exists i :: 0 <= i < |variants| && variants[i].id == routeId.value)
    ensures HasRoute(routeId) && r.Some? ==> r.value.id == routeId.value
    ensures !HasRoute(routeId) ==> (r.Some? <==> exists i :: 0 <= i < |variants| && variants[i].isDefault)
    ensures !HasRoute(routeId) && r.Some? ==> r.value.isDefault
  {
    if HasRoute(routeId) then FirstWhere(variants, (v: CVVariant) => v.id == routeId.value)
    else FirstWhere(variants, (v: CVVariant) => v.isDefault)
  }

  /** Without a route id, no default variant comes before the chosen one. */
  lemma ChooseVariantTakesFirstDefault(variants: seq<CVVariant>, i: int)
    requires 0 <= i < |variants| && variants[i].isDefault
    requires forall j :: 0 <= j < i ==> !variants[j].isDefault
    ensures ChooseVariant(variants, None) == Some(variants[i])
  {
    var r := ChooseVariant(variants, None);
    assert r.Some?;
    var k :| 0 <= k < |variants| && variants[k] == r.value && variants[k].isDefault
             && forall j :: 0 <= j < k ==> !variants[j].isDefault;
    assert k == i;
  }

  /**
   * `selection?.length ? records.filter(x => selection.includes(x.id)) : records`: a non-empty
   * selection keeps exactly the selected records in their order, an empty one keeps everything.
   */
  function Select<T(!new)>(records: seq<T>, selection: seq<string>, idOf: T -> string): (r: seq<T>)
    ensures selection == [] ==> r == records
    ensures forall x :: x in r <==> x in records && (selection == [] || idOf(x) in selection)
    ensures IsSubsequence(r, records)
  {
    if selection == [] then
      SubsequenceOfItself(records);
      records
    else
      FilterIsSubsequence(records, (x: T) => idOf(x) in selection);
      Filter(records, (x: T) => idOf(x) in selection)
  }

  /** A selection list of the variant, or the empty list when there is no variant (`cv?.selected…`). */
  function SelectionOf(v: Option<CVVariant>, pick: CVVariant -> seq<string>): (r: seq<string>)
    ensures v.None? ==> r == []
  {
    if v.Some? then pick(v.value) else []
  }

  /**
   * The snapshot shown for variant `v`: the profile as stored, each collection cut down by the
   * matching selection list.  No snapshot without a profile.
   */
  function Compose(profile: Option<Profile>, v: Option<CVVariant>, experiences: seq<Experience>,
                   projects: seq<Project>, skills: seq<Skill>, education: seq<Education>,
                   certifications: seq<Certification>): (r: Option<CVSnapshot>)
    ensures r.Some? <==> profile.Some?
    ensures r.Some? ==> r.value.profile == profile.value
    ensures r.Some? && v.None? ==>
      r.value == CVSnapshot(profile.value, experiences, projects, skills, education, certifications)
    ensures r.Some? ==>
      && IsSubsequence(r.value.experiences, experiences) && IsSubsequence(r.value.projects, projects)
      && IsSubsequence(r.value.skills, skills) && IsSubsequence(r.value.education, education)
      && IsSubsequence(r.value.certifications, certifications)
    ensures r.Some? && v.Some? ==> forall e :: e in r.value.experiences <==>
      e in experiences && (v.value.selectedExperienceIds == [] || e.id in v.value.selectedExperienceIds)
    ensures r.Some? && v.Some? ==> forall p :: p in r.value.projects <==>
      p in projects && (v.value.selectedProjectIds == [] || p.id in v.value.selectedProjectIds)
    ensures r.Some? && v.Some? ==> forall s :: s in r.value.skills <==>
      s in skills && (v.value.selectedSkillIds == [] || s.id in v.value.selectedSkillIds)
    ensures r.Some? && v.Some? ==> forall e :: e in r.value.education <==>
      e in education && (v.value.selectedEducationIds == [] || e.id in v.value.selectedEducationIds)
    ensures r.Some? && v.Some? ==> forall c :: c in r.value.certifications <==>
      c in certifications && (v.value.selectedCertificationIds == [] || c.id in v.value.selectedCertificationIds)
  {
    if profile.None? then None
    else
      Some(CVSnapshot(
        profile.value,
        Select(experiences, SelectionOf(v, (c: CVVariant) => c.selectedExperienceIds), (e: Experience) => e.id),
        Select(projects, SelectionOf(v, (c: CVVariant) => c.selectedProjectIds), (p: Project) => p.id),
        Select(skills, SelectionOf(v, (c: CVVariant) => c.selectedSkillIds), (s: Skill) => s.id),
        Select(education, SelectionOf(v, (c: CVVariant) => c.selectedEducationIds), (e: Education) => e.id),
        Select(certifications, SelectionOf(v, (c: CVVariant) => c.selectedCertificationIds),
               (c: Certification) => c.id)))
  }

  /**
   * With a non-empty experience selection, the snapshot holds exactly the experiences whose id is
   * selected; selected ids that match no record add nothing.  (The other four collections are
   * cut by the same `Select`.)
   */
  lemma ComposeKeepsSelectedExperiences(profile: Profile, v: CVVariant, experiences: seq<Experience>,
                                        projects: seq<Project>, skills: seq<Skill>, education: seq<Education>,
                                        certifications: seq<Certification>)
    requires v.selectedExperienceIds != []
    ensures var r := Compose(Some(profile), Some(v), experiences, projects, skills, education, certifications);
      forall e :: e in r.value.experiences <==> e in experiences && e.id in v.selectedExperienceIds
  {
  }

  /** An empty selection list shows the whole collection, as if there were no variant. */
  lemma ComposeEmptySelectionShowsAll(profile: Profile, v: CVVariant, experiences: seq<Experience>,
                                      projects: seq<Project>, skills: seq<Skill>, education: seq<Education>,
                                      certifications: seq<Certification>)
    requires v.selectedExperienceIds == [] && v.selectedProjectIds == [] && v.selectedSkillIds == []
    requires v.selectedEducationIds == [] && v.selectedCertificationIds == []
    ensures Compose(Some(profile), Some(v), experiences, projects, skills, education, certifications)
         == Compose(Some(profile), None, experiences, projects, skills, education, certifications)
  {
  }

  /** The colour the preview starts with. */
  const DefaultAccent: string := "#3b82f6"

  /** The template and accent colour the preview page shows. */
  datatype PreviewView = PreviewView(template: Template, accent: string)

  /**
   * The preview's initial view: classic and blue, or the variant's template, with its accent
   * colour when it has a non-empty one.
   */
  function InitialView(v: Option<CVVariant>): (r: PreviewView)
    ensures v.None? ==> r == PreviewView(Classic, DefaultAccent)
    ensures v.Some? ==> r.template == v.value.template
    ensures r.accent != DefaultAccent ==> v.Some? && v.value.accentColor == Some(r.accent)
    ensures v.Some? && v.value.accentColor.Some? && v.value.accentColor.value != "" ==>
      r.accent == v.value.accentColor.value
  {
    if v.None? then PreviewView(Classic, DefaultAccent)
    else
      var c := v.value;
      PreviewView(c.template, if c.accentColor.Some? && c.accentColor.value != "" then c.accentColor.value else DefaultAccent)
  }

  /** `${origin}/share/${variant?.id || 'default'}`. */
  function ShareLink(origin: string, v: Option<CVVariant>): (r: string)
    ensures StartsWith(r, origin + "/share/")
    ensures v.Some? && v.value.id != "" ==> r[|origin| + 7..] == v.value.id
    ensures !(v.Some? && v.value.id != "") ==> r[|origin| + 7..] == "default"
  {
    var target := if v.Some? && v.value.id != "" then v.value.id else "default";
    var r := origin + "/share/" + target;
    assert r[..|origin| + 7] == origin + "/share/";
    assert r[|origin| + 7..] == target;
    r
  }

  /** The route id that a link of the form `${origin}/share/<id>` opens. */
  function RouteOfLink(origin: string, link: string): (r: Option<string>)
    ensures StartsWith(link, origin + "/share/") ==> r == Some(link[|origin| + 7..])
  {
    if StartsWith(link, origin + "/share/") then Some(link[|origin| + 7..]) else None
  }

  /** Ids are keys of the variants table: no two variants share one. */
  predicate UniqueIds(variants: seq<CVVariant>) {
    forall i, j :: 0 <= i < |variants| && 0 <= j < |variants| && variants[i].id == variants[j].id ==> i == j
  }

  /** Opening the shared link of a stored variant shows that variant. */
  lemma ShareLinkOpensVariant(variants: seq<CVVariant>, v: CVVariant, origin: string)
    requires UniqueIds(variants)
    requires v in variants && v.id != ""
    ensures ChooseVariant(variants, RouteOfLink(origin, ShareLink(origin, Some(v)))) == Some(v)
  {
    var route := RouteOfLink(origin, ShareLink(origin, Some(v)));
    assert route == Some(v.id);
    var i :| 0 <= i < |variants| && variants[i] == v;
    var r := ChooseVariant(variants, route);
    assert r.Some?;
    var k :| 0 <= k < |variants| && variants[k] == r.value && variants[k].id == v.id;
    assert k == i;
  }

  /** The variant part of the JSON backup. */
  datatype VariantSummary = VariantSummary(name: string, template: Template, language: Language)

  /** The JSON backup of the share page. */
  datatype ShareEnvelope = ShareEnvelope(exportedAt: string, variant: Option<VariantSummary>, data: CVSnapshot)

  /** A file to download: its name and what it holds. */
  datatype Download = Download(fileName: string, envelope: ShareEnvelope)

  /**
   * `handleExportJSON` of the share page: nothing without a snapshot; otherwise the snapshot with
   * the variant's name, template and language (or null) and the time stamp, named after the owner.
   */
  function ShareExportJson(snapshot: Option<CVSnapshot>, v: Option<CVVariant>, exportedAt: string): (r: Option<Download>)
    ensures r.Some? <==> snapshot.Some?
    ensures r.Some? ==> r.value.envelope.data == snapshot.value && r.value.envelope.exportedAt == exportedAt
    ensures r.Some? ==> (r.value.envelope.variant.None? <==> v.None?)
    ensures r.Some? && v.Some? ==>
      r.value.envelope.variant == Some(VariantSummary(v.value.name, v.value.template, v.value.language))
    ensures r.Some? ==> NoWhitespace(r.value.fileName) && EndsWith(r.value.fileName, "_backup.json")
  {
    if snapshot.None? then None
    else
      var summary := if v.Some? then Some(VariantSummary(v.value.name, v.value.template, v.value.language)) else None;
      Some(Download(BackupFileName(snapshot.value.profile.name), ShareEnvelope(exportedAt, summary, snapshot.value)))
  }

  /**
   * After a PDF is saved, the preview and share pages write `lastExportedAt` of the variant shown,
   * and only when there is one with an id.
   */
  method RecordPdfExport(db: CareerDatabase, v: Option<CVVariant>, now: int)
    requires db.Valid()
    modifies db
    ensures db.Valid()
    ensures !(v.Some? && v.value.id != "") ==> db.State() == old(db.State())
    ensures v.Some? && v.value.id != "" && v.value.id in old(db.cvVariants) ==>
      db.State() == old(db.State()).(cvVariants := old(db.cvVariants)[v.value.id := old(db.cvVariants)[v.value.id].(lastExportedAt := Some(now))])
    ensures v.Some? && v.value.id !in old(db.cvVariants) ==> db.State() == old(db.State())
  {
    if v.Some? && v.value.id != "" {
      db.RecordExportTime(v.value.id, now);
    }
  }
}
