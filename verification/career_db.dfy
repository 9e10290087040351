/**
 * The local database of the application and the hooks that write to it.  Each table is a map
 * from primary key to record; the activity log is a sequence that only grows.  Every generated
 * id and every `new Date()` is a parameter (`id`, `now`).
 */
module CareerDb {
  import opened Options
  import opened Seqs
  import opened Entities
  import opened DbQueries
  import opened SeedData

  /** A copy of every table and the log, for saying what an operation leaves as it was. */
  datatype Tables = Tables(
    profile: Option<Profile>, experiences: map<string, Experience>, projects: map<string, Project>,
    skills: map<string, Skill>, education: map<string, Education>, certifications: map<string, Certification>,
    cvVariants: map<string, CVVariant>, settings: Option<AppSettings>, activityLog: seq<ActivityEntry>)

  /** What `useCareerStats` reports: the completion percentage and the size of each table. */
  datatype CareerStats = CareerStats(
    profileComplete: int, experienceCount: nat, projectCount: nat, skillCount: nat,
    educationCount: nat, certificationCount: nat, cvVariantCount: nat)

  /** `ids` lists every key of `t` exactly once. */
  ghost predicate ListsKeys<T>(ids: seq<string>, t: map<string, T>) {
    Distinct(ids) && forall k :: k in ids <==> k in t
  }

  /** `toArray()` followed by `map(r => r.id)`: every key of the table once, in an order the model leaves open. */
  method KeysOf<T>(t: map<string, T>) returns (ks: seq<string>)
    ensures ListsKeys(ks, t)
  {
    ks := [];
    var rest := t.Keys;
    while rest != {}
      invariant rest <= t.Keys
      invariant Distinct(ks)
      invariant forall k :: k in ks <==> k in t && k !in rest
      decreases |rest|
    {
      var k :| k in rest;
      ks := ks + [k];
      rest := rest - {k};
    }
  }

  /** Each table's records sit under their own ids. */
  predicate ExperiencesKeyed(t: map<string, Experience>) { forall k :: k in t ==> t[k].id == k }
  predicate ProjectsKeyed(t: map<string, Project>) { forall k :: k in t ==> t[k].id == k }
  predicate SkillsKeyed(t: map<string, Skill>) { forall k :: k in t ==> t[k].id == k }
  predicate EducationKeyed(t: map<string, Education>) { forall k :: k in t ==> t[k].id == k }
  predicate CertificationsKeyed(t: map<string, Certification>) { forall k :: k in t ==> t[k].id == k }
  predicate VariantsKeyed(t: map<string, CVVariant>) { forall k :: k in t ==> t[k].id == k }

  /** The seed ids are not yet used as keys in their tables. */
  predicate SeedIdsFresh(t: Tables, seed: SeedIds)
    requires seed.WellFormed()
  {
    seed.experience !in t.experiences && seed.certification !in t.certifications && seed.variant !in t.cvVariants
    && seed.projects[0] !in t.projects && seed.projects[1] !in t.projects
    && seed.education[0] !in t.education && seed.education[1] !in t.education
    && forall i :: 0 <= i < |seed.skills| ==> seed.skills[i] !in t.skills
  }

  /**
   * The tables after the first run's record writes: the profile, the experience, the two projects,
   * the two education entries, the certification and the thirty-two skills, in that order.
   */
  function Seeded(t: Tables, seed: SeedIds, now: int): (r: Tables)
    requires seed.WellFormed()
  {
    var eds := SeedEducation(seed.education, now);
    t.(profile := Some(SeedProfile(now)),
       experiences := t.experiences[seed.experience := SeedExperience(seed.experience, now)],
       projects := t.projects[seed.projects[0] := SeedTruckFlow(seed.projects[0], now)]
                             [seed.projects[1] := SeedReservezMoi(seed.projects[1], now)],
       education := t.education[seed.education[0] := eds[0]][seed.education[1] := eds[1]],
       certifications := t.certifications[seed.certification := SeedCertification(seed.certification, now)],
       skills := InsertSkills(t.skills, SeedSkills(seed.skills, now)))
  }

  /** The seed writes keep every record under its own id. */
  lemma SeededKeyed(t: Tables, seed: SeedIds, now: int)
    requires seed.WellFormed()
    requires ExperiencesKeyed(t.experiences) && ProjectsKeyed(t.projects) && SkillsKeyed(t.skills)
    requires EducationKeyed(t.education) && CertificationsKeyed(t.certifications)
    ensures var r := Seeded(t, seed, now);
      && r.profile.Some? && r.profile.value.id == "default"
      && ExperiencesKeyed(r.experiences) && ProjectsKeyed(r.projects) && SkillsKeyed(r.skills)
      && EducationKeyed(r.education) && CertificationsKeyed(r.certifications)
      && r.cvVariants == t.cvVariants && r.settings == t.settings && r.activityLog == t.activityLog
  {
  }

  /** The settings after the first run: the seeded ones, unless settings already existed (their `add` fails). */
  function SettingsAfterSeed(settings: Option<AppSettings>): (r: Option<AppSettings>)
    ensures r.Some?
    ensures settings.Some? ==> r == settings
  {
    if settings.None? then Some(SeedSettings) else settings
  }

  /** What the first run appends to the log: one 'Database initialized' entry, or nothing when the settings `add` failed. */
  function LogAfterSeed(settings: Option<AppSettings>, now: int): (r: seq<ActivityEntry>)
    ensures |r| == if settings.None? then 1 else 0
    ensures settings.None? ==> r[0] == ActivityEntry("Database initialized", "system", None, now)
  {
    if settings.None? then [ActivityEntry("Database initialized", "system", None, now)] else []
  }

  /** The variant under `id` is the seeded default variant and selects every key of the five content tables of `r`. */
  ghost predicate DefaultVariantWritten(r: Tables, id: string, now: int) {
    id in r.cvVariants
    && var v := r.cvVariants[id];
    && v == SeedVariant(id, v.selectedExperienceIds, v.selectedProjectIds, v.selectedSkillIds,
                        v.selectedEducationIds, v.selectedCertificationIds, now)
    && ListsKeys(v.selectedExperienceIds, r.experiences) && ListsKeys(v.selectedProjectIds, r.projects)
    && ListsKeys(v.selectedSkillIds, r.skills) && ListsKeys(v.selectedEducationIds, r.education)
    && ListsKeys(v.selectedCertificationIds, r.certifications)
  }

  /**
   * The state `r` the first run leaves from state `t`: the seed records written, one new variant
   * (the default, selecting everything), the settings, and the log entry.
   */
  ghost predicate FirstRunDone(t: Tables, r: Tables, seed: SeedIds, now: int)
    requires seed.WellFormed()
  {
    && r.(cvVariants := t.cvVariants, settings := t.settings, activityLog := t.activityLog) == Seeded(t, seed, now)
    && r.cvVariants.Keys == t.cvVariants.Keys + {seed.variant}
    && (forall k :: k in t.cvVariants ==> r.cvVariants[k] == t.cvVariants[k])
    && r.settings == SettingsAfterSeed(t.settings)
    && r.activityLog == t.activityLog + LogAfterSeed(t.settings, now)
    && DefaultVariantWritten(r, seed.variant, now)
  }

  /** The three steps of the first run compose to `FirstRunDone`. */
  lemma FirstRunSteps(t: Tables, written: Tables, withVariant: Tables, r: Tables, seed: SeedIds, now: int)
    requires seed.WellFormed()
    requires written == Seeded(t, seed, now)
    requires withVariant == written.(cvVariants := withVariant.cvVariants)
    requires withVariant.cvVariants.Keys == written.cvVariants.Keys + {seed.variant}
    requires forall k :: k in written.cvVariants ==> withVariant.cvVariants[k] == written.cvVariants[k]
    requires DefaultVariantWritten(withVariant, seed.variant, now)
    requires r == withVariant.(settings := SettingsAfterSeed(withVariant.settings),
                               activityLog := withVariant.activityLog + LogAfterSeed(withVariant.settings, now))
    ensures FirstRunDone(t, r, seed, now)
  {
  }

  class CareerDatabase {
    var profile: Option<Profile>
    var experiences: map<string, Experience>
    var projects: map<string, Project>
    var skills: map<string, Skill>
    var education: map<string, Education>
    var certifications: map<string, Certification>
    var cvVariants: map<string, CVVariant>
    var settings: Option<AppSettings>
    var activityLog: seq<ActivityEntry>

    ghost function State(): Tables
      reads this
    {
      Tables(profile, experiences, projects, skills, education, certifications, cvVariants, settings, activityLog)
    }

    /** Every record sits under its own id; the single profile and settings records use the key 'default'. */
    ghost predicate Valid()
      reads this
    {
      (profile.Some? ==> profile.value.id == "default")
      && (settings.Some? ==> settings.value.id == "default")
      && ExperiencesKeyed(experiences) && ProjectsKeyed(projects) && SkillsKeyed(skills)
      && EducationKeyed(education) && CertificationsKeyed(certifications) && VariantsKeyed(cvVariants)
    }

    /** A database with all tables empty and nothing logged. */
    constructor ()
      ensures Valid()
      ensures State() == Tables(None, map[], map[], map[], map[], map[], map[], None, [])
    {
      profile, experiences, projects, skills := None, map[], map[], map[];
      education, certifications, cvVariants, settings, activityLog := map[], map[], map[], None, [];
    }

    /** `logActivity`: appends exactly one entry with the given action, entity type and entity id. */
    method LogActivity(action: string, entityType: string, entityId: Option<string>, now: int)
      modifies this`activityLog
      ensures activityLog == old(activityLog) + [ActivityEntry(action, entityType, entityId, now)]
    {
      activityLog := activityLog + [ActivityEntry(action, entityType, entityId, now)];
    }

    // ---------------- profile ----------------

    /** `updateProfile`: merges into the 'default' profile (a missing profile stays missing) and logs. */
    method UpdateProfile(d: ProfilePatch, now: int)
      requires Valid()
      modifies this
      ensures Valid()
      ensures State() == old(State()).(
        profile := if old(profile).Some? then Some(MergeProfile(old(profile).value, d, now)) else None,
        activityLog := old(activityLog) + [ActivityEntry("Updated profile", "profile", Some("default"), now)])
    {
      if profile.Some? {
        profile := Some(MergeProfile(profile.value, d, now));
      }
      LogActivity("Updated profile", "profile", Some("default"), now);
    }

    // ---------------- experiences ----------------

    /**
     * `addExperience`: stores the record with `order` equal to the number of experiences before the
     * call, visible, and logs once.  An id already in use is refused (the `add` fails) and nothing changes.
     */
    method AddExperience(d: ExperienceInput, id: string, now: int) returns (r: Option<string>)
      requires Valid()
      modifies this
      ensures Valid()
      ensures r.Some? <==> id !in old(experiences)
      ensures r.Some? ==> r.value == id && State() == old(State()).(
        experiences := old(experiences)[id := NewExperience(d, id, |old(experiences)|, now)],
        activityLog := old(activityLog) + [ActivityEntry("Added experience", "experience", Some(id), now)])
      ensures r.None? ==> State() == old(State())
    {
      if id in experiences {
        return None;
      }
      experiences := experiences[id := NewExperience(d, id, |experiences|, now)];
      LogActivity("Added experience", "experience", Some(id), now);
      r := Some(id);
    }

    /** `updateExperience`: merges the patch into the record with that id (none: no change) and logs once either way. */
    method UpdateExperience(id: string, d: ExperiencePatch, now: int)
      requires Valid()
      modifies this
      ensures Valid()
      ensures State() == old(State()).(
        experiences := if id in old(experiences) then old(experiences)[id := MergeExperience(old(experiences)[id], d, now)]
                       else old(experiences),
        activityLog := old(activityLog) + [ActivityEntry("Updated experience", "experience", Some(id), now)])
    {
      if id in experiences {
        experiences := experiences[id := MergeExperience(experiences[id], d, now)];
      }
      LogActivity("Updated experience", "experience", Some(id), now);
    }

    /** `removeExperience`: deletes the key (a missing key is a no-op) and logs once. */
    method RemoveExperience(id: string, now: int)
      requires Valid()
      modifies this
      ensures Valid()
      ensures State() == old(State()).(
        experiences := old(experiences) - {id},
        activityLog := old(activityLog) + [ActivityEntry("Removed experience", "experience", Some(id), now)])
    {
      experiences := experiences - {id};
      LogActivity("Removed experience", "experience", Some(id), now);
    }

    /**
     * `reorderExperiences`: for each position i, the record `ids[i]` gets `order := i`; nothing
     * checks that `ids` is a permutation of the table.  One log entry without an entity id.
     */
    method ReorderExperiences(ids: seq<string>, now: int)
      requires Valid()
      modifies this
      ensures Valid()
      ensures State() == old(State()).(
        experiences := Reordered(old(experiences), ids),
        activityLog := old(activityLog) + [ActivityEntry("Reordered experiences", "experience", None, now)])
    {
      // The updates run inside one transaction: they are applied to a working copy that is committed at the end.
      var table := experiences;
      var i := 0;
      while i < |ids|
        invariant 0 <= i <= |ids|
        invariant table == Reordered(experiences, ids[..i])
      {
        assert ids[..i + 1][..i] == ids[..i];
        if ids[i] in table {
          table := table[ids[i] := table[ids[i]].(order := i)];
        }
        i := i + 1;
      }
      assert ids[..|ids|] == ids;
      experiences := table;
      LogActivity("Reordered experiences", "experience", None, now);
    }

    // ---------------- projects ----------------

    /** `addProject`: like `addExperience`, and the new project is not featured. */
    method AddProject(d: ProjectInput, id: string, now: int) returns (r: Option<string>)
      requires Valid()
      modifies this
      ensures Valid()
      ensures r.Some? <==> id !in old(projects)
      ensures r.Some? ==> r.value == id && State() == old(State()).(
        projects := old(projects)[id := NewProject(d, id, |old(projects)|, now)],
        activityLog := old(activityLog) + [ActivityEntry("Added project", "project", Some(id), now)])
      ensures r.None? ==> State() == old(State())
    {
      if id in projects {
        return None;
      }
      projects := projects[id := NewProject(d, id, |projects|, now)];
      LogActivity("Added project", "project", Some(id), now);
      r := Some(id);
    }

    /** `updateProject`: merges the patch into the record with that id and logs once. */
    method UpdateProject(id: string, d: ProjectPatch, now: int)
      requires Valid()
      modifies this
      ensures Valid()
      ensures State() == old(State()).(
        projects := if id in old(projects) then old(projects)[id := MergeProject(old(projects)[id], d, now)] else old(projects),
        activityLog := old(activityLog) + [ActivityEntry("Updated project", "project", Some(id), now)])
    {
      if id in projects {
        projects := projects[id := MergeProject(projects[id], d, now)];
      }
      LogActivity("Updated project", "project", Some(id), now);
    }

    /** `removeProject`: deletes the key and logs once. */
    method RemoveProject(id: string, now: int)
      requires Valid()
      modifies this
      ensures Valid()
      ensures State() == old(State()).(
        projects := old(projects) - {id},
        activityLog := old(activityLog) + [ActivityEntry("Removed project", "project", Some(id), now)])
    {
      projects := projects - {id};
      LogActivity("Removed project", "project", Some(id), now);
    }

    /** `toggleFeatured`: flips `isFeatured` of an existing project; no log and no `updatedAt` change. */
    method ToggleFeatured(id: string)
      requires Valid()
      modifies this
      ensures Valid()
      ensures State() == old(State()).(
        projects := if id in old(projects) then old(projects)[id := old(projects)[id].(isFeatured := !old(projects)[id].isFeatured)]
                    else old(projects))
    {
      if id in projects {
        projects := projects[id := projects[id].(isFeatured := !projects[id].isFeatured)];
      }
    }

    // ---------------- skills ----------------

    /** `addSkill`: stores a visible skill and logs once; an id in use is refused. */
    method AddSkill(d: SkillInput, id: string, now: int) returns (r: Option<string>)
      requires Valid()
      modifies this
      ensures Valid()
      ensures r.Some? <==> id !in old(skills)
      ensures r.Some? ==> r.value == id && State() == old(State()).(
        skills := old(skills)[id := NewSkill(d, id, now)],
        activityLog := old(activityLog) + [ActivityEntry("Added skill", "skill", Some(id), now)])
      ensures r.None? ==> State() == old(State())
    {
      if id in skills {
        return None;
      }
      skills := skills[id := NewSkill(d, id, now)];
      LogActivity("Added skill", "skill", Some(id), now);
      r := Some(id);
    }

    /** `removeSkill`: deletes the key and logs once. */
    method RemoveSkill(id: string, now: int)
      requires Valid()
      modifies this
      ensures Valid()
      ensures State() == old(State()).(
        skills := old(skills) - {id},
        activityLog := old(activityLog) + [ActivityEntry("Removed skill", "skill", Some(id), now)])
    {
      skills := skills - {id};
      LogActivity("Removed skill", "skill", Some(id), now);
    }

    /** `updateSkillLevel`: sets `level` and `updatedAt` of an existing skill; nothing is logged. */
    method UpdateSkillLevel(id: string, level: int, now: int)
      requires Valid()
      modifies this
      ensures Valid()
      ensures State() == old(State()).(
        skills := if id in old(skills) then old(skills)[id := old(skills)[id].(level := level, updatedAt := now)] else old(skills))
    {
      if id in skills {
        skills := skills[id := skills[id].(level := level, updatedAt := now)];
      }
    }

    /** `skillsByCategory`: each category's list holds exactly the stored skills of that category; a category without skills has no list. */
    method SkillsByCategory() returns (r: map<SkillCategory, seq<Skill>>)
      ensures forall c :: c in r <==> exists s :: s in skills.Values && s.category == c
      ensures forall c, s :: c in r ==> (s in r[c] <==> s in skills.Values && s.category == c)
    {
      var table := skills;
      var keys := KeysOf(table);
      var all := seq(|keys|, i requires 0 <= i < |keys| => table[keys[i]]);
      forall s | s in table.Values ensures s in all {
        var k :| k in table && table[k] == s;
        var i :| 0 <= i < |keys| && keys[i] == k;
        assert all[i] == s;
      }
      assert forall s :: s in all <==> s in table.Values;
      r := GroupByCategory(all);
      GroupByCategoryMembers(all);
    }

    // ---------------- education ----------------

    /** `addEducation`: stores the record with `order` equal to the previous count (education has no visibility flag) and logs once. */
    method AddEducation(d: EducationInput, id: string, now: int) returns (r: Option<string>)
      requires Valid()
      modifies this
      ensures Valid()
      ensures r.Some? <==> id !in old(education)
      ensures r.Some? ==> r.value == id && State() == old(State()).(
        education := old(education)[id := NewEducation(d, id, |old(education)|, now)],
        activityLog := old(activityLog) + [ActivityEntry("Added education", "education", Some(id), now)])
      ensures r.None? ==> State() == old(State())
    {
      if id in education {
        return None;
      }
      education := education[id := NewEducation(d, id, |education|, now)];
      LogActivity("Added education", "education", Some(id), now);
      r := Some(id);
    }

    /** `updateEducation`: merges the patch into the record with that id and logs once. */
    method UpdateEducation(id: string, d: EducationPatch, now: int)
      requires Valid()
      modifies this
      ensures Valid()
      ensures State() == old(State()).(
        education := if id in old(education) then old(education)[id := MergeEducation(old(education)[id], d, now)] else old(education),
        activityLog := old(activityLog) + [ActivityEntry("Updated education", "education", Some(id), now)])
    {
      if id in education {
        education := education[id := MergeEducation(education[id], d, now)];
      }
      LogActivity("Updated education", "education", Some(id), now);
    }

    /** `removeEducation`: deletes the key and logs once. */
    method RemoveEducation(id: string, now: int)
      requires Valid()
      modifies this
      ensures Valid()
      ensures State() == old(State()).(
        education := old(education) - {id},
        activityLog := old(activityLog) + [ActivityEntry("Removed education", "education", Some(id), now)])
    {
      education := education - {id};
      LogActivity("Removed education", "education", Some(id), now);
    }

    // ---------------- certifications ----------------

    /** `addCertification`: stores the record and logs once; an id in use is refused. */
    method AddCertification(d: CertificationInput, id: string, now: int) returns (r: Option<string>)
      requires Valid()
      modifies this
      ensures Valid()
      ensures r.Some? <==> id !in old(certifications)
      ensures r.Some? ==> r.value == id && State() == old(State()).(
        certifications := old(certifications)[id := NewCertification(d, id, now)],
        activityLog := old(activityLog) + [ActivityEntry("Added certification", "certification", Some(id), now)])
      ensures r.None? ==> State() == old(State())
    {
      if id in certifications {
        return None;
      }
      certifications := certifications[id := NewCertification(d, id, now)];
      LogActivity("Added certification", "certification", Some(id), now);
      r := Some(id);
    }

    /** `removeCertification`: deletes the key and logs once. */
    method RemoveCertification(id: string, now: int)
      requires Valid()
      modifies this
      ensures Valid()
      ensures State() == old(State()).(
        certifications := old(certifications) - {id},
        activityLog := old(activityLog) + [ActivityEntry("Removed certification", "certification", Some(id), now)])
    {
      certifications := certifications - {id};
      LogActivity("Removed certification", "certification", Some(id), now);
    }

    // ---------------- CV variants ----------------

    /** `addVariant`: stores a variant that is never the default and logs once; an id in use is refused. */
    method AddVariant(d: VariantInput, id: string, now: int) returns (r: Option<string>)
      requires Valid()
      modifies this
      ensures Valid()
      ensures r.Some? <==> id !in old(cvVariants)
      ensures r.Some? ==> r.value == id && State() == old(State()).(
        cvVariants := AddVariantTo(old(cvVariants), d, id, now),
        activityLog := old(activityLog) + [ActivityEntry("Created CV variant", "cvVariant", Some(id), now)])
      ensures r.None? ==> State() == old(State())
    {
      if id in cvVariants {
        return None;
      }
      cvVariants := AddVariantTo(cvVariants, d, id, now);
      LogActivity("Created CV variant", "cvVariant", Some(id), now);
      r := Some(id);
    }

    /** `updateVariant`: merges the patch into the variant with that id and logs once. */
    method UpdateVariant(id: string, d: VariantPatch, now: int)
      requires Valid()
      modifies this
      ensures Valid()
      ensures State() == old(State()).(
        cvVariants := if id in old(cvVariants) then old(cvVariants)[id := MergeVariant(old(cvVariants)[id], d, now)] else old(cvVariants),
        activityLog := old(activityLog) + [ActivityEntry("Updated CV variant", "cvVariant", Some(id), now)])
    {
      if id in cvVariants {
        cvVariants := cvVariants[id := MergeVariant(cvVariants[id], d, now)];
      }
      LogActivity("Updated CV variant", "cvVariant", Some(id), now);
    }

    /** `removeVariant`: refuses the default variant, leaving the table and the log as they were; otherwise deletes and logs once. */
    method RemoveVariant(id: string, now: int) returns (r: Result<()>)
      requires Valid()
      modifies this
      ensures Valid()
      ensures r.Err? <==> RemoveVariantFrom(old(cvVariants), id).Err?
      ensures r.Err? ==> r.message == "Cannot delete default CV variant" && State() == old(State())
      ensures r.Ok? ==> State() == old(State()).(
        cvVariants := RemoveVariantFrom(old(cvVariants), id).value,
        activityLog := old(activityLog) + [ActivityEntry("Removed CV variant", "cvVariant", Some(id), now)])
    {
      var removed := RemoveVariantFrom(cvVariants, id);
      if removed.Err? {
        return Err(removed.message);
      }
      cvVariants := removed.value;
      LogActivity("Removed CV variant", "cvVariant", Some(id), now);
      r := Ok(());
    }

    /**
     * `setDefault`, with the clearing step doing what its comment says: every default flag is
     * cleared, then `id` becomes the only default.  `SetDefaultAsWritten` is the version in which
     * the clearing step finds no record.
     */
    method SetDefault(id: string, now: int)
      requires Valid()
      modifies this
      ensures Valid()
      ensures State() == old(State()).(
        cvVariants := SetDefaultIntended(old(cvVariants), id),
        activityLog := old(activityLog) + [ActivityEntry("Set default CV variant", "cvVariant", Some(id), now)])
      ensures DefaultIds(cvVariants) == if id in cvVariants then {id} else {}
    {
      cvVariants := SetDefaultIntended(cvVariants, id);
      LogActivity("Set default CV variant", "cvVariant", Some(id), now);
    }

    /**
     * `setDefault` as the program runs it: the clearing step selects no record, so every earlier
     * default keeps its flag and `id` joins them.
     */
    method SetDefaultAsWritten(id: string, now: int)
      requires Valid()
      modifies this
      ensures Valid()
      ensures State() == old(State()).(
        cvVariants := DbQueries.SetDefaultAsWritten(old(cvVariants), id),
        activityLog := old(activityLog) + [ActivityEntry("Set default CV variant", "cvVariant", Some(id), now)])
      ensures DefaultIds(cvVariants) == DefaultIds(old(cvVariants)) + (if id in old(cvVariants) then {id} else {})
    {
      SetDefaultAsWrittenKeepsDefaults(cvVariants, id);
      cvVariants := DbQueries.SetDefaultAsWritten(cvVariants, id);
      LogActivity("Set default CV variant", "cvVariant", Some(id), now);
    }

    /** `markExported`: sets only `lastExportedAt` of that variant and logs once. */
    method MarkExported(id: string, now: int)
      requires Valid()
      modifies this
      ensures Valid()
      ensures State() == old(State()).(
        cvVariants := if id in old(cvVariants) then old(cvVariants)[id := old(cvVariants)[id].(lastExportedAt := Some(now))]
                      else old(cvVariants),
        activityLog := old(activityLog) + [ActivityEntry("Exported CV", "cvVariant", Some(id), now)])
    {
      RecordExportTime(id, now);
      LogActivity("Exported CV", "cvVariant", Some(id), now);
    }

    /** `update(id, { lastExportedAt: new Date() })` as the preview and share pages write it: no log. */
    method RecordExportTime(id: string, now: int)
      requires Valid()
      modifies this
      ensures Valid()
      ensures State() == old(State()).(
        cvVariants := if id in old(cvVariants) then old(cvVariants)[id := old(cvVariants)[id].(lastExportedAt := Some(now))]
                      else old(cvVariants))
    {
      if id in cvVariants {
        cvVariants := cvVariants[id := cvVariants[id].(lastExportedAt := Some(now))];
      }
    }

    // ---------------- settings ----------------

    /** `updateSettings`: merges into the 'default' settings (no timestamp) and logs once without an entity id. */
    method UpdateSettings(d: SettingsPatch, now: int)
      requires Valid()
      modifies this
      ensures Valid()
      ensures State() == old(State()).(
        settings := if old(settings).Some? then Some(MergeSettings(old(settings).value, d)) else None,
        activityLog := old(activityLog) + [ActivityEntry("Updated settings", "settings", None, now)])
    {
      if settings.Some? {
        settings := Some(MergeSettings(settings.value, d));
      }
      LogActivity("Updated settings", "settings", None, now);
    }

    // ---------------- statistics ----------------

    /** `useCareerStats`: the completion checklist's score, which lies in [0, 100], and the size of every table. */
    method Stats() returns (stats: CareerStats)
      ensures stats.profileComplete == Completion(profile, |experiences|, |projects|, |skills|, |education|)
      ensures 0 <= stats.profileComplete <= 100
      ensures stats.experienceCount == |experiences| && stats.projectCount == |projects| && stats.skillCount == |skills|
      ensures stats.educationCount == |education| && stats.certificationCount == |certifications|
      ensures stats.cvVariantCount == |cvVariants|
    {
      var hasName := profile.Some? && profile.value.name != "";
      var hasEmail := profile.Some? && profile.value.email != "";
      var hasPhone := profile.Some? && profile.value.phone != "";
      var hasGithub := profile.Some? && profile.value.github != "";
      var hasLinkedin := profile.Some? && profile.value.linkedin != "";
      var completion := 0;
      completion := completion + if hasName then 15 else 0;
      completion := completion + if hasEmail then 10 else 0;
      completion := completion + if hasPhone then 5 else 0;
      completion := completion + if hasGithub then 5 else 0;
      completion := completion + if hasLinkedin then 5 else 0;
      completion := completion + if |experiences| > 0 then 20 else 0;
      completion := completion + if |projects| > 0 then 15 else 0;
      completion := completion + if |skills| > 0 then 15 else 0;
      completion := completion + if |education| > 0 then 10 else 0;
      ChecklistEarned(profile, |experiences|, |projects|, |skills|, |education|);
      stats := CareerStats(if completion < 100 then completion else 100, |experiences|, |projects|, |skills|,
                           |education|, |certifications|, |cvVariants|);
    }

    // ---------------- first run ----------------

    /**
     * `initializeDatabase`: when the profile table is empty, writes the seed records, then the
     * default variant selecting every key of the five content tables, then the settings, then one
     * 'Database initialized' entry.  When a profile exists nothing changes.  If settings already
     * exist their `add` fails, so they are kept and nothing is logged.
     */
    method InitializeDatabase(seed: SeedIds, now: int)
      requires Valid()
      requires seed.WellFormed()
      requires profile.None? ==> SeedIdsFresh(State(), seed)
      modifies this
      ensures Valid()
      ensures old(profile).Some? ==> State() == old(State())
      ensures old(profile).None? ==> FirstRunDone(old(State()), State(), seed, now)
    {
      if profile.Some? {
        return;
      }
      ghost var before := State();
      WriteSeedRecords(seed, now);
      ghost var written := State();
      AddSeedVariant(seed.variant, now);
      ghost var withVariant := State();
      AddSeedSettings(now);
      FirstRunSteps(before, written, withVariant, State(), seed, now);
    }

    /** The settings of the first run and the closing log entry; existing settings make the `add` fail, and then nothing is logged. */
    method AddSeedSettings(now: int)
      requires settings.Some? ==> settings.value.id == "default"
      modifies this`settings, this`activityLog
      ensures settings.Some? && settings.value.id == "default"
      ensures State() == old(State()).(settings := SettingsAfterSeed(old(settings)),
                                       activityLog := old(activityLog) + LogAfterSeed(old(settings), now))
    {
      if settings.None? {
        settings := Some(SeedSettings);
        LogActivity("Database initialized", "system", None, now);
      }
    }

    /** The record writes of the first run, up to and including the skills. */
    method WriteSeedRecords(seed: SeedIds, now: int)
      requires Valid()
      requires seed.WellFormed()
      modifies this`profile, this`experiences, this`projects, this`skills, this`education, this`certifications
      ensures Valid()
      ensures State() == Seeded(old(State()), seed, now)
    {
      var written := Seeded(Tables(profile, experiences, projects, skills, education, certifications,
                                   cvVariants, settings, activityLog), seed, now);
      SeededKeyed(State(), seed, now);
      profile, experiences, projects := written.profile, written.experiences, written.projects;
      skills, education, certifications := written.skills, written.education, written.certifications;
    }

    /** The default variant of the first run, selecting every key of the five content tables (read back with `toArray`). */
    method AddSeedVariant(id: string, now: int)
      requires VariantsKeyed(cvVariants)
      requires id !in cvVariants
      modifies this`cvVariants
      ensures VariantsKeyed(cvVariants)
      ensures State() == old(State()).(cvVariants := cvVariants)
      ensures cvVariants.Keys == old(cvVariants).Keys + {id}
      ensures forall k :: k in old(cvVariants) ==> cvVariants[k] == old(cvVariants)[k]
      ensures DefaultVariantWritten(State(), id, now)
    {
      var ex := KeysOf(experiences);
      var pr := KeysOf(projects);
      var sk := KeysOf(skills);
      var ed := KeysOf(education);
      var ce := KeysOf(certifications);
      cvVariants := cvVariants[id := SeedVariant(id, ex, pr, sk, ed, ce, now)];
    }
  }
}
