/**
 * The records written on first run: one profile, one experience, two projects, two education
 * entries, one certification, thirty-two skills, the default CV variant and the settings.
 * Every generated id and the clock are parameters.
 */
module SeedData {
  import opened Options
  import opened Seqs
  import opened Entities

  // The longer texts of the seeded records.
  const ProfileTitle: string := "Développeuse Web Full Stack"
  const ProfileEmail: string := "keltoummalouki@gmail.com"
  const ProfilePhone: string := "+212 606 232 697"
  const ProfilePortfolio: string := "keltoummalouki.com"
  const ExperienceRole: string := "Stagiaire Développeuse Web"
  const ExperienceTask1: string := "Développement d'un site vitrine officiel"
  const ExperienceTask2: string := "Réalisation de maquettes et intégration front-end avec React, Next.js et Tailwind CSS"
  const ExperienceTask3: string := "Mise en place d'animations web interactives"
  const TruckFlowDescription: string := "Développement d'une solution de gestion de flotte routière permettant de :"
  const TruckFlowHighlight1: string := "Gérer le parc automobile (camions, remorques), les chauffeurs et l'assignation des trajets"
  const TruckFlowHighlight2: string := "Suivre la maintenance préventive, la consommation et générer les ordres de mission (PDF)"
  const TruckFlowLink: string := "https://github.com/keltoummalouki/TruckFlow"
  const ReservezMoiDescription: string := "Développement d'un système permettant aux utilisateurs de :"
  const ReservezMoiHighlight1: string := "Réserver facilement des services dans plusieurs secteurs (ex : beauté, réparation, etc.)"
  const ReservezMoiHighlight2: string := "Consulter les disponibilités et gérer leurs réservations"
  const ReservezMoiLink: string := "https://github.com/keltoummalouki/Reservez-Moi"
  const YouCodeDegree: string := "Formation Développement Full Stack YouCode - UM6P, Campus Youssoufia"
  const YouCodeDescription: string := "Formation pratique en développement web front-end et back-end"
  const BaccalaureatDegree: string := "Baccalauréat en Sciences physiques et chimiques"
  const DockerCertificateName: string := "Docker Foundations Professional LinkedIn Certificate"
  const DockerCertificateLink: string := "https://www.linkedin.com/learning/certificates/docker-foundations"


  /** The ids the first run draws from the id generator, one per seeded record. */
  datatype SeedIds = SeedIds(
    experience: string, projects: seq<string>, education: seq<string>, certification: string,
    skills: seq<string>, variant: string)
  {
    /** The right number of ids for each table, and no id drawn twice. */
    predicate WellFormed() {
      |projects| == 2 && |education| == 2 && |skills| == 32 && Distinct(skills)
      && projects[0] != projects[1] && education[0] != education[1]
    }
  }

  /** The seeded profile, stored under the fixed key 'default'. */
  function SeedProfile(now: int): (p: Profile)
    ensures p.id == "default" && p.profileImage.None? && p.createdAt == now && p.updatedAt == now
  {
    Profile("default", "Keltoum Malouki", ProfileTitle, ProfileEmail,
            ProfilePhone, "Casablanca", "keltoummalouki", "keltoummalouki", ProfilePortfolio,
            None, now, now)
  }

  /** The seeded experience, first in order. */
  function SeedExperience(id: string, now: int): (e: Experience)
    ensures e.id == id && e.order == 0 && e.isVisible
  {
    Experience(id, ExperienceRole, "Caisse Manager", "Rabat", "Juin 2025", "Août 2025",
               [ExperienceTask1,
                ExperienceTask2,
                ExperienceTask3],
               ["Next.js", "React.js", "Tailwind CSS", "GSAP", "Framer Motion", "Shadcn UI", "Git", "GitHub"],
               true, 0, now, now)
  }

  /** The first seeded project. */
  function SeedTruckFlow(id: string, now: int): (p: Project)
    ensures p.id == id && p.order == 0 && p.isFeatured && p.isVisible
  {
    Project(id, "TruckFlow", "Décembre 2025",
            TruckFlowDescription,
            [TruckFlowHighlight1,
             TruckFlowHighlight2],
            ["React.js", "Redux", "Node.js", "Express.js", "MongoDB", "Docker"],
            Some(TruckFlowLink), true, true, 0, now, now)
  }

  /** The second seeded project. */
  function SeedReservezMoi(id: string, now: int): (p: Project)
    ensures p.id == id && p.order == 1 && p.isFeatured && p.isVisible
  {
    Project(id, "Réservez-Moi", "Avril 2025",
            ReservezMoiDescription,
            [ReservezMoiHighlight1,
             ReservezMoiHighlight2],
            ["Laravel", "MySQL", "HTML", "Tailwind CSS", "JavaScript", "UML", "Jira", "Git", "GitHub"],
            Some(ReservezMoiLink), true, true, 1, now, now)
  }

  /** The two seeded projects, both featured and visible, with orders 0 and 1. */
  function SeedProjects(ids: seq<string>, now: int): (r: seq<Project>)
    requires |ids| == 2
    ensures |r| == 2
    ensures r[0].id == ids[0] && r[0].order == 0 && r[0].isFeatured && r[0].isVisible
    ensures r[1].id == ids[1] && r[1].order == 1 && r[1].isFeatured && r[1].isVisible
  {
    var first := SeedTruckFlow(ids[0], now);
    var second := SeedReservezMoi(ids[1], now);
    [first, second]
  }

  /** The two seeded education entries, with orders 0 and 1. */
  function SeedEducation(ids: seq<string>, now: int): (r: seq<Education>)
    requires |ids| == 2
    ensures |r| == 2
    ensures r[0].id == ids[0] && r[0].order == 0
    ensures r[1].id == ids[1] && r[1].order == 1
  {
    [ Education(ids[0], YouCodeDegree, "YouCode - UM6P",
                "Youssoufia", None, "2024 – Présent",
                Some(YouCodeDescription), 0, now, now),
      Education(ids[1], BaccalaureatDegree, "Lycée Okba Bnou Nafiaa",
                "Casablanca", None, "2023 – 2024", None, 1, now, now) ]
  }

  /** The seeded certification. */
  function SeedCertification(id: string, now: int): (c: Certification)
    ensures c.id == id && c.date.None?
  {
    Certification(id, DockerCertificateName, "LinkedIn", None,
                  Some(DockerCertificateLink), now, now)
  }

  /** A seeded skill before it gets an id: its name and category. */
  datatype SkillSeedEntry = SkillSeedEntry(name: string, category: SkillCategory)

  /** The thirty-two seeded skills, in the order they are written. */
  const SkillSeed: seq<SkillSeedEntry> := [
    SkillSeedEntry("C", Languages), SkillSeedEntry("HTML5", Languages), SkillSeedEntry("CSS3", Languages),
    SkillSeedEntry("JavaScript", Languages), SkillSeedEntry("TypeScript", Languages), SkillSeedEntry("PHP", Languages),
    SkillSeedEntry("SQL", Languages), SkillSeedEntry("NoSQL", Languages),
    SkillSeedEntry("React.js", Frameworks), SkillSeedEntry("Next.js", Frameworks), SkillSeedEntry("Laravel", Frameworks),
    SkillSeedEntry("Node.js", Frameworks), SkillSeedEntry("Express.js", Frameworks), SkillSeedEntry("NestJS", Frameworks),
    SkillSeedEntry("Tailwind CSS", Frameworks), SkillSeedEntry("GraphQL", Frameworks),
    SkillSeedEntry("MySQL", Databases), SkillSeedEntry("PostgreSQL", Databases), SkillSeedEntry("MongoDB", Databases),
    SkillSeedEntry("Docker", Devops), SkillSeedEntry("CI/CD (GitHub Actions, GitLab)", Devops),
    SkillSeedEntry("Tests automatisés", Devops),
    SkillSeedEntry("Méthodologies agiles", ProjectManagement), SkillSeedEntry("Jira", ProjectManagement),
    SkillSeedEntry("Git", VersionControl), SkillSeedEntry("GitHub", VersionControl), SkillSeedEntry("GitLab", VersionControl),
    SkillSeedEntry("UML", Modeling), SkillSeedEntry("Merise", Modeling),
    SkillSeedEntry("Figma", Design), SkillSeedEntry("Canva", Design), SkillSeedEntry("Adobe XD", Design)
  ]

  /** The seeded skills: each entry of the list with its id, level 4 and visible. */
  function SeedSkills(ids: seq<string>, now: int): (r: seq<Skill>)
    requires |ids| == 32
    ensures |r| == 32
    ensures forall i :: 0 <= i < |r| ==>
      r[i].id == ids[i] && r[i].name == SkillSeed[i].name && r[i].category == SkillSeed[i].category
      && r[i].level == 4 && r[i].isVisible
  {
    seq(32, i requires 0 <= i < 32 =>
      Skill(ids[i], SkillSeed[i].name, SkillSeed[i].category, 4, None, true, now, now))
  }

  /** The seeded variant 'CV Principal': French, classic, the default, selecting the given ids. */
  function SeedVariant(id: string, experiences: seq<string>, projects: seq<string>, skills: seq<string>,
                       education: seq<string>, certifications: seq<string>, now: int): (v: CVVariant)
    ensures v.id == id && v.isDefault && v.name == "CV Principal" && v.language == Fr && v.template == Classic
    ensures v.selectedExperienceIds == experiences && v.selectedProjectIds == projects && v.selectedSkillIds == skills
    ensures v.selectedEducationIds == education && v.selectedCertificationIds == certifications
  {
    CVVariant(id, "CV Principal", Fr, Classic, experiences, projects, skills, education, certifications,
              None, true, now, now, None)
  }

  /** The seeded settings, stored under the fixed key 'default'. */
  const SeedSettings: AppSettings := AppSettings("default", SystemTheme, Fr, "classic", true)

  /**
   * `bulkAdd` of skills: puts each record under its own id.  Seeding only passes distinct, fresh
   * ids, so no record meets a key already taken (which Dexie would reject).
   */
  function InsertSkills(t: map<string, Skill>, recs: seq<Skill>): (r: map<string, Skill>)
    ensures (forall k :: k in t ==> t[k].id == k) ==> forall k :: k in r ==> r[k].id == k
    decreases |recs|
  {
    if recs == [] then t else InsertSkills(t[recs[0].id := recs[0]], recs[1..])
  }

  /** The keys after `bulkAdd` are the old keys and the new records' ids; a key no new record uses keeps its record. */
  lemma {:induction false} InsertSkillsKeys(t: map<string, Skill>, recs: seq<Skill>)
    ensures InsertSkills(t, recs).Keys == t.Keys + set i | 0 <= i < |recs| :: recs[i].id
    ensures forall k :: k in t && (forall i :: 0 <= i < |recs| ==> recs[i].id != k) ==> InsertSkills(t, recs)[k] == t[k]
    decreases |recs|
  {
    if recs != [] {
      InsertSkillsKeys(t[recs[0].id := recs[0]], recs[1..]);
      assert forall i :: 0 <= i < |recs[1..]| ==> recs[1..][i] == recs[i + 1];
      assert (set i | 0 <= i < |recs| :: recs[i].id)
          == {recs[0].id} + set i | 0 <= i < |recs[1..]| :: recs[1..][i].id;
    }
  }

  /** After inserting skills with distinct ids, each one is found under its id. */
  lemma {:induction false} InsertSkillsFinds(t: map<string, Skill>, recs: seq<Skill>, i: int)
    requires forall a, b :: 0 <= a < b < |recs| ==> recs[a].id != recs[b].id
    requires 0 <= i < |recs|
    ensures recs[i].id in InsertSkills(t, recs) && InsertSkills(t, recs)[recs[i].id] == recs[i]
    decreases |recs|
  {
    var t' := t[recs[0].id := recs[0]];
    if i == 0 {
      assert forall j :: 0 <= j < |recs[1..]| ==> recs[1..][j].id != recs[0].id;
      InsertSkillsKeys(t', recs[1..]);
    } else {
      InsertSkillsFinds(t', recs[1..], i - 1);
    }
  }
}
