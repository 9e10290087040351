# ResumeHub core, modelled in Dafny

ResumeHub is a browser-only CV builder. The user edits career data in forms. The data is kept in a
local IndexedDB database (Dexie) and in a zustand document store. From it the app composes CV
variants, exports and imports JSON, analyses the CV against a job description, and offers keyboard
navigation. This project models that logic and proves what it promises.

- `CareerDb.CareerDatabase` is a class whose fields are the Dexie tables (maps from id to
  record) and the activity log (a sequence). Its methods are the hooks of `src/db/hooks.ts` and the
  seeding of `src/db/database.ts`. `DbQueries` holds the pure table functions those methods are proved
  against: the reorder fold, the variant lifecycle, the completion checklist and the skill grouping.
  `SeedData` holds the seed records.
- `CVStore` is the zustand reducer of `src/store/cvStore.ts`: one pure function per action over a
  `StoreState` value.
- `Composer`, `FileNames` and `ExportMenu` are the Preview and Share pages' composition of a variant,
  the share link and JSON envelope, the export file names, and the export menu's import and export.
- `Analyzer` is the CV analyzer's rule list and score, and the job-description matcher.
- `FormFields`, `ExperiencePage`, `ProjectsPage`, `EducationPage`, `SkillsPage` and `CVsPage` are the
  editor pages. Each is a class holding its form state and the store or database it writes to.
- `CommandPalette`, `Shortcuts` and `Dashboard` are the palette's filter and key state machine, the
  global shortcut handler and its table, and the dashboard's derived texts.
- `Options`, `Seqs` and `Text` are helpers: an option type, sequence filtering, and JavaScript's
  string operations (white space, `trim`, `toLowerCase`, `includes`, `split`, `join`).

Things the browser supplies are parameters: the clock (`Date.now()`), the ids from `generateId`,
the answers to confirmation dialogs, and the `fr-FR` date formatter. Navigation is recorded as the
list of routes visited.

## Model

| member | source | states |
|---|---|---|
| Entities.TemplateName | src/db/database.ts:88 | the three template names, one per template |
| Entities.NewExperience | src/db/hooks.ts:30-37 | the stored experience: the input's fields, the id, `order`, visible, both timestamps `now` |
| Entities.NewProject | src/db/hooks.ts:77-85 | the stored project: the input's fields, visible and not featured |
| Entities.NewSkill | src/db/hooks.ts:129-135 | the stored skill: the input's fields, visible |
| Entities.NewEducation | src/db/hooks.ts:162-168 | the stored education entry: the input's fields and `order`, no visibility flag |
| Entities.NewCertification | src/db/hooks.ts:196-201 | the stored certification: the input's fields and the id |
| Entities.NewVariant | src/db/hooks.ts:224-230 | the stored variant: the input's fields, never the default |
| Entities.MergeProfile | src/db/hooks.ts:10-13 | each field is the patch's value when given, else the old one; `updatedAt` is refreshed; id and `createdAt` kept |
| Entities.MergeExperience | src/db/hooks.ts:43-46 | each field the patch names takes the patch's value and every other field keeps its value; id and `createdAt` kept, `updatedAt` refreshed |
| Entities.MergeProject | src/db/hooks.ts:91-94 | each field the patch names takes the patch's value and every other field keeps its value; id and `createdAt` kept, `updatedAt` refreshed |
| Entities.MergeEducation | src/db/hooks.ts:174-177 | each field the patch names takes the patch's value and every other field keeps its value; id and `createdAt` kept, `updatedAt` refreshed |
| Entities.MergeVariant | src/db/hooks.ts:236-239 | each field the patch names takes the patch's value and every other field, `isDefault` included, keeps its value; id and `createdAt` kept, `updatedAt` refreshed |
| Entities.MergeSettings | src/db/hooks.ts:276 | keeps the id; each field the patch names takes its value and the others are kept, so an empty patch changes nothing (no timestamp here) |
| Entities.MergeExperienceEmpty | src/db/hooks.ts:43-46 | an empty patch only refreshes `updatedAt` |
| Entities.MergeExperienceIdempotent | src/db/hooks.ts:43-46 | applying the same patch twice is the same as once |
| DbQueries.Reordered | src/db/hooks.ts:55-60 | the reorder loop keeps exactly the table's keys and changes nothing but `order` |
| DbQueries.LastIndex | src/db/hooks.ts:57-58 | the position a listed id ends with: its last position in the list, -1 when absent |
| DbQueries.ReorderedOrder | src/db/hooks.ts:55-60 | a listed record's `order` is its last position in `ids`; an unlisted record is untouched |
| DbQueries.ReorderedAtIndex | src/db/hooks.ts:57-58 | with no id repeated, `ids[i]` ends with `order == i` |
| DbQueries.ReorderedPermutationDense | src/db/hooks.ts:55-60 | when `ids` lists every key once, the orders become exactly 0..n-1 and identify the records |
| DbQueries.ReorderPartialListCollides | src/db/hooks.ts:55-62 | no permutation check: a list omitting a record can leave two records with the same `order` |
| DbQueries.DefaultIds | src/db/hooks.ts:218-220 | the ids whose `isDefault` flag is set |
| DbQueries.AddVariantTo | src/db/hooks.ts:222-233 | `addVariant` inserts exactly the new key, never as the default, and keeps every other record |
| DbQueries.RemoveVariantFrom | src/db/hooks.ts:243-250 | error "Cannot delete default CV variant" exactly for the default; otherwise the key is deleted and the defaults are unchanged |
| DbQueries.IsDefaultIndexKey | src/db/hooks.ts:255 | a boolean `isDefault` gives the record no key in the `isDefault` index |
| DbQueries.WhereIsDefaultEquals | src/db/hooks.ts:255 | `where('isDefault').equals(key)` selects exactly the records indexed under `key` |
| DbQueries.ModifyIsDefault | src/db/hooks.ts:255 | `modify({ isDefault })` sets the flag on the selected records and on no other |
| DbQueries.UpdateIsDefault | src/db/hooks.ts:257 | `update(id, { isDefault })` sets the flag of `id` only; a missing key is a no-op |
| DbQueries.SetDefaultAsWritten | src/db/hooks.ts:252-258 | `setDefault` as written keeps the table's keys |
| DbQueries.SetDefaultAsWrittenKeepsDefaults | src/db/hooks.ts:255-257 | as written, every earlier default stays a default and `id` is added to them |
| DbQueries.SetDefaultAsWrittenLeavesTwo | src/db/hooks.ts:252-258 | on a concrete table, setting "b" while "a" is the default leaves both flagged |
| DbQueries.SetDefaultIntended | src/db/hooks.ts:252-258 | "Unset current default" then set: `id` becomes the only default, and only the flags change |
| DbQueries.VariantLifecycleKeepsAtMostOneDefault | src/db/hooks.ts:222-250 | adding a variant and removing one keep "at most one default" |
| DbQueries.DefaultSurvivesRemoval | src/db/hooks.ts:243-247 | removing the default always fails with the error message |
| DbQueries.Checklist | src/db/hooks.ts:308-317 | the nine weighted checks, one per `if` of the completion sum |
| DbQueries.EarnedWithinTotal | src/db/hooks.ts:308-317 | the earned weight never exceeds the total, equals it when all are met and is 0 when none is |
| DbQueries.ChecklistTotals100 | src/db/hooks.ts:308-317 | the nine weights total exactly 100 |
| DbQueries.ChecklistEarned | src/db/hooks.ts:308-317 | the earned weight equals the sum of the weights whose conditions hold, item by item |
| DbQueries.Completion | src/db/hooks.ts:308-320 | the completion score lies in [0, 100] and equals the earned weight, so `Math.min` never clips |
| DbQueries.CompletionExtremes | src/db/hooks.ts:308-320 | a full profile with every table non-empty scores 100; no profile and empty tables score 0 |
| DbQueries.GroupByCategoryIsFilter | src/db/hooks.ts:118-125 | each category's list is exactly that category's skills in their original order; a category without skills has no entry |
| DbQueries.GroupByCategoryHas | src/db/hooks.ts:118-125 | a category has a list exactly when some skill belongs to it |
| DbQueries.GroupByCategoryMembers | src/db/hooks.ts:118-125 | both directions for every category: it has a list iff a skill belongs to it, and its list holds exactly those skills |
| DbQueries.SkillInExactlyItsCategory | src/db/hooks.ts:118-125 | each skill is in its own category's list and in no other |
| DbQueries.RecentActivity | src/db/hooks.ts:285-288 | the newest `limit` entries, newest first, and no more than the log holds |
| CareerDb.KeysOf | src/db/database.ts:338-342 | `toArray()` then the ids: every key of the table exactly once |
| CareerDb.SeededKeyed | src/db/database.ts:175-335 | the seed writes keep every record under its own id |
| CareerDb.SettingsAfterSeed | src/db/database.ts:360-366 | after the first run there are settings; existing settings are kept because the `add` fails |
| CareerDb.LogAfterSeed | src/db/database.ts:360-368 | the first run logs one 'Database initialized' entry of type 'system', or nothing when the settings `add` failed |
| CareerDb.FirstRunSteps | src/db/database.ts:169-370 | the record writes, the default variant and the settings compose to the first-run state |
| CareerDb.CareerDatabase.constructor | src/db/database.ts:130-144 | all nine tables empty and nothing logged |
| CareerDb.CareerDatabase.LogActivity | src/db/database.ts:157-165 | appends exactly one entry with the given action, entity type and entity id |
| CareerDb.CareerDatabase.UpdateProfile | src/db/hooks.ts:9-15 | merges the patch into the 'default' profile, refreshes `updatedAt`, logs once; nothing else changes |
| CareerDb.CareerDatabase.AddExperience | src/db/hooks.ts:27-40 | new record with `order` = previous count and `isVisible`; returns its id; one log entry; a taken id changes nothing |
| CareerDb.CareerDatabase.UpdateExperience | src/db/hooks.ts:42-48 | merges only the patch's fields and `updatedAt` into that record, other records unchanged, logs once |
| CareerDb.CareerDatabase.RemoveExperience | src/db/hooks.ts:50-53 | deletes the key, logs once |
| CareerDb.CareerDatabase.ReorderExperiences | src/db/hooks.ts:55-62 | the table becomes `Reordered(old, ids)` and one log entry without entity id is appended |
| CareerDb.CareerDatabase.AddProject | src/db/hooks.ts:74-88 | as addExperience, and the new project is not featured |
| CareerDb.CareerDatabase.UpdateProject | src/db/hooks.ts:90-96 | merges the patch and `updatedAt` into that project, logs once |
| CareerDb.CareerDatabase.RemoveProject | src/db/hooks.ts:98-101 | deletes the key, logs once |
| CareerDb.CareerDatabase.ToggleFeatured | src/db/hooks.ts:103-108 | flips `isFeatured` of an existing project only; no log, `updatedAt` untouched |
| CareerDb.CareerDatabase.AddSkill | src/db/hooks.ts:127-138 | stores a visible skill under the new id and logs once |
| CareerDb.CareerDatabase.RemoveSkill | src/db/hooks.ts:140-143 | deletes the key, logs once |
| CareerDb.CareerDatabase.UpdateSkillLevel | src/db/hooks.ts:145-147 | sets `level` and `updatedAt` of an existing skill; nothing is logged |
| CareerDb.CareerDatabase.SkillsByCategory | src/db/hooks.ts:118-125 | a category has a list iff a stored skill has it, and the list holds exactly those skills |
| CareerDb.CareerDatabase.AddEducation | src/db/hooks.ts:159-171 | new record with `order` = previous count and no visibility flag; logs once |
| CareerDb.CareerDatabase.UpdateEducation | src/db/hooks.ts:173-179 | merges the patch and `updatedAt`, logs once |
| CareerDb.CareerDatabase.RemoveEducation | src/db/hooks.ts:181-184 | deletes the key, logs once |
| CareerDb.CareerDatabase.AddCertification | src/db/hooks.ts:194-204 | stores the record under the new id, logs once |
| CareerDb.CareerDatabase.RemoveCertification | src/db/hooks.ts:206-209 | deletes the key, logs once |
| CareerDb.CareerDatabase.AddVariant | src/db/hooks.ts:222-233 | stores a non-default variant under the new id, logs once; a taken id changes nothing |
| CareerDb.CareerDatabase.UpdateVariant | src/db/hooks.ts:235-241 | merges the patch and `updatedAt` into that variant, logs once |
| CareerDb.CareerDatabase.RemoveVariant | src/db/hooks.ts:243-250 | the default is refused with table and log unchanged; otherwise the key is deleted and one entry logged |
| CareerDb.CareerDatabase.SetDefault | src/db/hooks.ts:252-260 | with the clearing step doing what its comment says (the corrected transition, see Findings): `id` is left the only default, logs once |
| CareerDb.CareerDatabase.SetDefaultAsWritten | src/db/hooks.ts:252-260 | the transition the program runs: every earlier default keeps its flag and `id` joins them; logs once |
| CareerDb.CareerDatabase.MarkExported | src/db/hooks.ts:262-265 | sets only `lastExportedAt` of that variant, logs 'Exported CV' once |
| CareerDb.CareerDatabase.RecordExportTime | src/pages/SharePage.tsx:115-117 | the page's direct `update` of `lastExportedAt`, without a log entry |
| CareerDb.CareerDatabase.UpdateSettings | src/db/hooks.ts:275-278 | merges into the 'default' settings, logs once without entity id |
| CareerDb.CareerDatabase.Stats | src/db/hooks.ts:295-328 | the accumulated completion equals `Completion` and lies in [0, 100]; each count is its table's size |
| CareerDb.CareerDatabase.InitializeDatabase | src/db/database.ts:169-370 | with a profile present nothing changes; otherwise the first-run state: seed records, one default variant selecting every key, settings, one log entry |
| CareerDb.CareerDatabase.AddSeedSettings | src/db/database.ts:359-368 | the settings with id 'default' and the closing log entry, both skipped when settings exist |
| CareerDb.CareerDatabase.WriteSeedRecords | src/db/database.ts:175-335 | the record writes of the first run produce `Seeded(old state)` |
| CareerDb.CareerDatabase.AddSeedVariant | src/db/database.ts:337-357 | one new variant, the default, selecting every key of the five content tables; other variants untouched |
| SeedData.SeedProfile | src/db/database.ts:175-187 | the seeded profile has id 'default' and no photo |
| SeedData.SeedExperience | src/db/database.ts:190-207 | the seeded experience is visible with `order` 0 |
| SeedData.SeedTruckFlow | src/db/database.ts:211-227 | the first seeded project: featured, visible, `order` 0 |
| SeedData.SeedReservezMoi | src/db/database.ts:228-244 | the second seeded project: featured, visible, `order` 1 |
| SeedData.SeedProjects | src/db/database.ts:210-245 | two projects with dense orders 0 and 1 |
| SeedData.SeedEducation | src/db/database.ts:248-270 | two education entries with dense orders 0 and 1 |
| SeedData.SeedCertification | src/db/database.ts:273-280 | the seeded certification under the given id |
| SeedData.SeedSkills | src/db/database.ts:283-335 | thirty-two skills, each the list entry's name and category with level 4 and visible |
| SeedData.SeedVariant | src/db/database.ts:344-357 | 'CV Principal', French, classic, the default, selecting exactly the given ids |
| SeedData.InsertSkills | src/db/database.ts:326-335 | `bulkAdd` of skills keeps every record under its own id |
| SeedData.InsertSkillsKeys | src/db/database.ts:326-335 | the keys after `bulkAdd` are the old keys plus the new ids; untouched keys keep their records |
| SeedData.InsertSkillsFinds | src/db/database.ts:326-335 | with distinct ids, each added skill is found under its id |
| CVStore.With | src/store/cvStore.ts:41 | replacing one skill category sets that category and keeps the other seven |
| CVStore.MergeSkills | src/store/cvStore.ts:41 | `{ ...skills, ...patch }`: a category named by the patch takes its list, the others are kept |
| CVStore.MergePersonalInfoFields | src/store/cvStore.ts:32 | each of the nine personal-info fields is the patch's value when supplied, else the old one |
| CVStore.MergePersonalInfoEmpty | src/store/cvStore.ts:32 | an empty patch changes nothing |
| CVStore.MergePersonalInfoCompose | src/store/cvStore.ts:28-34 | two merges equal one merge of the combined patch; merging the same patch twice equals once |
| CVStore.UpdateWhere | src/store/cvStore.ts:61-63 | `map(x => matches ? {...x, ...patch} : x)`: same length, matching entries patched, others unchanged |
| CVStore.UpdateWhereNone | src/store/cvStore.ts:61-63 | when nothing matches the list is unchanged |
| CVStore.UpdatePersonalInfo | src/store/cvStore.ts:28-34 | only `personalInfo` changes, to the merge; the rest of cv and the settings are unchanged |
| CVStore.UpdateSkills | src/store/cvStore.ts:37-43 | named categories take the patch's lists, all others are kept; nothing else changes |
| CVStore.AddExperience | src/store/cvStore.ts:46-55 | appends exactly one entry with the fresh id at the end; earlier entries and everything else unchanged |
| CVStore.UpdateExperience | src/store/cvStore.ts:57-65 | only entries with that id are patched; length and order kept; an absent id changes nothing |
| CVStore.RemoveExperience | src/store/cvStore.ts:67-73 | drops every entry with that id and keeps every copy of every other entry (multiset), in relative order |
| CVStore.RemoveUndoesAddExperience | src/store/cvStore.ts:46-73 | removing a freshly added id gives back the old state |
| CVStore.AddEducation | src/store/cvStore.ts:76-85 | appends exactly one entry with the fresh id at the end |
| CVStore.UpdateEducation | src/store/cvStore.ts:87-95 | only entries with that id are patched; length and order kept; an absent id changes nothing |
| CVStore.RemoveEducation | src/store/cvStore.ts:97-103 | drops every entry with that id and keeps every copy of every other entry (multiset), in relative order |
| CVStore.RemoveUndoesAddEducation | src/store/cvStore.ts:76-103 | removing a freshly added id gives back the old state |
| CVStore.AddProject | src/store/cvStore.ts:106-115 | appends exactly one entry with the fresh id at the end |
| CVStore.UpdateProject | src/store/cvStore.ts:117-125 | only entries with that id are patched; length and order kept; an absent id changes nothing |
| CVStore.RemoveProject | src/store/cvStore.ts:127-133 | drops every entry with that id and keeps every copy of every other entry (multiset), in relative order |
| CVStore.RemoveUndoesAddProject | src/store/cvStore.ts:106-133 | removing a freshly added id gives back the old state |
| CVStore.UpdateCertifications | src/store/cvStore.ts:136-139 | replaces the certifications only |
| CVStore.UpdateSoftSkills | src/store/cvStore.ts:141-144 | replaces the soft skills only |
| CVStore.UpdateLanguages | src/store/cvStore.ts:146-149 | replaces the languages only |
| CVStore.UpdateSettings | src/store/cvStore.ts:152-155 | each of the five settings takes the patch's value when supplied, else keeps its own; cv unchanged |
| CVStore.SetTemplate | src/store/cvStore.ts:157-160 | changes only `templateId`; cv unchanged |
| CVStore.SetTheme | src/store/cvStore.ts:162-165 | changes only `themeMode`; cv unchanged |
| CVStore.SetTemplateThemeAreUpdates | src/store/cvStore.ts:152-165 | setTemplate and setTheme are settings updates with a one-field patch |
| CVStore.ImportCV | src/store/cvStore.ts:168-171 | cv is replaced wholesale; settings untouched |
| CVStore.ResetCV | src/store/cvStore.ts:173-177 | both cv and settings return to the defaults (classic template, black accent) |
| CVStore.ImportForgets | src/store/cvStore.ts:168-177 | a second import overrides the first; a reset forgets any import |
| Composer.FirstWhere | src/pages/PreviewPage.tsx:46 | `filter(p).first()`: nothing iff no element satisfies `p`, else the first that does |
| Composer.ChooseVariant | src/pages/PreviewPage.tsx:42-47 | with a route id, the variant with that id if any; without one, a default variant if any |
| Composer.ChooseVariantTakesFirstDefault | src/pages/SharePage.tsx:28-34 | without a route id the first default in table order is chosen |
| Composer.Select | src/pages/PreviewPage.tsx:69-71 | an empty selection keeps every record; otherwise exactly the records whose id is selected, in input order; unknown ids are skipped |
| Composer.SelectionOf | src/pages/PreviewPage.tsx:69 | `cv?.selectedXIds`: no variant gives the empty selection |
| Composer.Compose | src/pages/PreviewPage.tsx:65-84 | a snapshot exactly when the profile exists; the profile copied unchanged; without a variant every collection whole; with one, each of the five collections is an in-order subsequence of its table holding exactly the records whose id the variant selects (all records when that selection is empty) |
| Composer.ComposeKeepsSelectedExperiences | src/pages/SharePage.tsx:53-55 | a non-empty experience selection keeps exactly the selected experiences, in order |
| Composer.ComposeEmptySelectionShowsAll | src/pages/SharePage.tsx:51-68 | a variant with five empty selections shows every record of every table |
| Composer.InitialView | src/pages/PreviewPage.tsx:35-36 | classic and the default accent without a variant; the variant's template; the accent changes only to a non-empty `accentColor` |
| Composer.ShareLink | src/pages/SharePage.tsx:75-78 | origin + '/share/' + the variant id, or 'default' without a variant or with an empty id |
| Composer.RouteOfLink | src/pages/SharePage.tsx:30-31 | the route id read back from a share link |
| Composer.ShareLinkOpensVariant | src/pages/SharePage.tsx:28-34 | with unique ids, opening a variant's share link loads that same variant |
| Composer.ShareExportJson | src/pages/SharePage.tsx:130-147 | nothing without a snapshot; otherwise the envelope with the snapshot, `variant` null iff no variant else its name, template and language, and a `_backup.json` file name without white space |
| Composer.RecordPdfExport | src/pages/SharePage.tsx:115-117 | `lastExportedAt` is written only when the variant has an id that is in the table; nothing else changes |
| FileNames.SafeName | src/components/common/ExportMenu.tsx:25 | `replace(/\s+/g, '_')` leaves no white space and never lengthens the name |
| FileNames.SafeNameKeepsClean | src/components/common/ExportMenu.tsx:25 | a name without white space is unchanged; the replacement is idempotent |
| FileNames.DatePart | src/components/common/ExportMenu.tsx:26 | `split('T')[0]`: a prefix of the stamp without 'T' |
| FileNames.DatePartOfStamp | src/components/common/ExportMenu.tsx:26 | the date part of `date + 'T' + time` is `date` |
| FileNames.ExportFileName | src/components/common/ExportMenu.tsx:24-28 | starts with 'CV_' and ends with '.' + the extension |
| FileNames.ExportFileNameOfStamp | src/components/common/ExportMenu.tsx:24-28 | for a clean name and an ISO stamp: exactly `CV_<name>_<date>.<ext>` |
| FileNames.BackupFileName | src/pages/SharePage.tsx:147 | `CV_…_backup.json` without white space |
| FileNames.PreviewPdfName | src/pages/PreviewPage.tsx:117 | `CV_…_<template>.pdf` without white space |
| FileNames.SharePdfName | src/pages/SharePage.tsx:112 | `CV_….pdf` without white space |
| ExportMenu.ExportDocument | src/components/common/ExportMenu.tsx:211-218 | the cv's eight fields plus `_metadata` {exportedAt, '1.0.0', 'ResumeHub'}; the fields read back as the same cv |
| ExportMenu.ExportJson | src/components/common/ExportMenu.tsx:209-225 | the exported document holds the cv and metadata; the file is `getFileName('json')` |
| ExportMenu.Unwrap | src/components/common/ExportMenu.tsx:245-251 | the eight CV fields are kept and `_metadata` dropped; an unwrapped document is taken as it is |
| ExportMenu.Validate | src/components/common/ExportMenu.tsx:253-256 | accepted iff personalInfo, skills and experience are all present; else 'Invalid CV data structure' |
| ExportMenu.HandleImport | src/components/common/ExportMenu.tsx:234-265 | no file does nothing; non-JSON and invalid documents are rejected and `importCV` is not called; a valid complete document replaces cv and keeps settings |
| ExportMenu.ExportImportRoundTrip | src/components/common/ExportMenu.tsx:211-258 | importing an exported cv gives back exactly that cv, settings unchanged |
| ExportMenu.ImportIgnoresMetadata | src/components/common/ExportMenu.tsx:245-251 | the import result does not depend on the `_metadata` block |
| ExportMenu.ResetIfConfirmed | src/components/common/ExportMenu.tsx:273-287 | `resetCV` runs only when the dialog is confirmed |
| ExportMenu.ExportGuard.constructor | src/components/common/ExportMenu.tsx:22 | not exporting at first |
| ExportMenu.ExportGuard.Begin | src/components/common/ExportMenu.tsx:31-35 | a handler starts only when no export runs, and then sets the flag |
| ExportMenu.ExportGuard.Finish | src/components/common/ExportMenu.tsx:155-157 | the `finally` block always clears the flag |
| Analyzer.When | src/pages/AnalyzePage.tsx:30-47 | a guarded `push`: one result when the condition holds, none otherwise |
| Analyzer.WhenCounts | src/pages/AnalyzePage.tsx:30-47 | a guarded push adds one result of its kind exactly when its condition holds |
| Analyzer.ProfileChecks | src/pages/AnalyzePage.tsx:30-47 | every profile result is in category 'Profile' |
| Analyzer.ProfileCounts | src/pages/AnalyzePage.tsx:30-47 | 'Contact info is complete' iff name and email are present; one warning per missing name or email; one info per missing phone, GitHub or LinkedIn |
| Analyzer.ProfileKindSum | src/pages/AnalyzePage.tsx:30-47 | the count of a kind is the sum of the six guarded pushes' counts |
| Analyzer.ProfileWhenCounts | src/pages/AnalyzePage.tsx:30-47 | each of the six profile checks contributes to exactly its own kind |
| Analyzer.ExperienceCount | src/pages/AnalyzePage.tsx:50-57 | 0 experiences: warning; 1: info; 2 or more: success |
| Analyzer.ExperienceChecks | src/pages/AnalyzePage.tsx:50-64 | exactly one count result, plus one 'few tasks' warning iff some entry has fewer than 2 tasks |
| Analyzer.ProjectChecks | src/pages/AnalyzePage.tsx:67-80 | no projects: one warning; else a success for 2 or more, then 'No project links' iff no project has a link, a success otherwise |
| Analyzer.SkillChecks | src/pages/AnalyzePage.tsx:83-91 | one result: warning for none, success iff at least 10, info otherwise |
| Analyzer.EducationChecks | src/pages/AnalyzePage.tsx:94-98 | one result: warning for none, success otherwise |
| Analyzer.CertificationChecks | src/pages/AnalyzePage.tsx:101-105 | exactly one result: success with certifications, info without |
| Analyzer.Analysis | src/pages/AnalyzePage.tsx:26-108 | the rule list yields at least five results |
| Analyzer.AnalyzeCV | src/pages/AnalyzePage.tsx:26-108 | the pushes in source order produce exactly `Analysis` |
| Analyzer.PushProfileChecks | src/pages/AnalyzePage.tsx:30-47 | appends exactly the profile results |
| Analyzer.PushExperienceChecks | src/pages/AnalyzePage.tsx:50-64 | appends exactly the experience results |
| Analyzer.PushProjectChecks | src/pages/AnalyzePage.tsx:67-80 | appends exactly the project results |
| Analyzer.PushSkillChecks | src/pages/AnalyzePage.tsx:83-91 | appends exactly the skills result |
| Analyzer.PushEducationChecks | src/pages/AnalyzePage.tsx:94-98 | appends exactly the education result |
| Analyzer.PushCertificationChecks | src/pages/AnalyzePage.tsx:101-105 | appends exactly the certifications result |
| Analyzer.CountKind | src/pages/AnalyzePage.tsx:146-148 | `filter(r => r.type === k).length` never exceeds the list's length |
| Analyzer.CountKindAppend | src/pages/AnalyzePage.tsx:146-148 | counts add up over concatenation |
| Analyzer.KindCountsAddUp | src/pages/AnalyzePage.tsx:146-148 | success, warning and info counts sum to the number of results |
| Analyzer.RoundedPercent | src/pages/AnalyzePage.tsx:149 | `Math.round(part / whole * 100)` in exact arithmetic: within half a point, in [0, 100], 0 for none and 100 for all |
| Analyzer.RoundingBounds | src/pages/AnalyzePage.tsx:149 | the rounding's quotient and remainder give those bounds |
| Analyzer.Score | src/pages/AnalyzePage.tsx:146-149 | the score lies in [0, 100] |
| Analyzer.AnalysisScoreDefined | src/pages/AnalyzePage.tsx:101-149 | the result list is never empty, so the division is defined and the score lies in [0, 100] |
| Analyzer.LowerTechnologies | src/pages/AnalyzePage.tsx:130-131 | exactly the lower-cased technologies of every record |
| Analyzer.FoundKeywords | src/pages/AnalyzePage.tsx:125-126 | exactly the keywords occurring in the lower-cased description, in list order |
| Analyzer.Partition | src/pages/AnalyzePage.tsx:135-140 | matched and missing split the found keywords (as multisets), each in list order, by coverage |
| Analyzer.MatchJobDescription | src/pages/AnalyzePage.tsx:111-143 | a blank description leaves the previous result; otherwise matched ∪ missing = found and matched = the covered keywords |
| Analyzer.PageMatch | src/pages/AnalyzePage.tsx:111-143 | the page's matcher with the corrected coverage (see Findings): a blank description keeps the previous result; otherwise a found keyword is matched exactly when a non-empty technology covers it, and missing exactly when none does |
| Analyzer.PageMatchAsWritten | src/pages/AnalyzePage.tsx:111-143 | the page's matcher as the program runs it: a found keyword is matched exactly when some technology, the empty one included, covers it |
| Analyzer.PageMatchAsWrittenMissesNothing | src/pages/AnalyzePage.tsx:133-140 | as written, one empty technology leaves no keyword missing, whatever the job description |
| Analyzer.MatchedMissingDisjoint | src/pages/AnalyzePage.tsx:135-140 | no keyword is both matched and missing |
| Analyzer.EmptyTechnologyCoversAll | src/pages/AnalyzePage.tsx:136 | `kw.includes('')` holds, so an empty technology covers every keyword |
| Analyzer.EmptyTechnologyMatchesEverything | src/pages/AnalyzePage.tsx:133-140 | as written, one empty technology makes every found keyword matched and none missing |
| Analyzer.IntendedIgnoresEmptyTechnology | src/pages/AnalyzePage.tsx:135-137 | with the intended coverage, adding an empty technology changes nothing |
| Analyzer.IntendedWithOnlyEmptyTechnology | src/pages/AnalyzePage.tsx:135-137 | only an empty technology: the intended coverage matches nothing, the written one everything |
| Analyzer.IntendedPartitionIgnoresEmpty | src/pages/AnalyzePage.tsx:135-140 | with the intended coverage an empty technology changes neither matched nor missing |
| FormFields.HasTextIsTrimTruthy | src/pages/ExperiencePage.tsx:31 | `t.trim()` is truthy exactly when the trimmed text is non-empty |
| FormFields.NonBlank | src/pages/ExperiencePage.tsx:31 | `filter(t => t.trim())` keeps exactly the entries that are not all white space, in order |
| FormFields.NonBlankKeepsFilled | src/pages/ExperiencePage.tsx:31 | a list without blank entries is kept whole |
| FormFields.NonBlankIdempotent | src/pages/ExperiencePage.tsx:31 | filtering twice is filtering once |
| FormFields.ParseTechnologies | src/pages/ExperiencePage.tsx:297 | `split(',').map(t => t.trim())`: one more piece than commas, each trimmed and comma-free (empty input gives one empty piece) |
| FormFields.ParseShown | src/pages/ExperiencePage.tsx:293-297 | parsing the `join(', ')` display of trimmed comma-free technologies gives them back |
| FormFields.ParseSingle | src/pages/ExperiencePage.tsx:293-297 | a single technology survives the display and re-parse |
| FormFields.ShownCons | src/pages/ExperiencePage.tsx:293 | the display is the first technology, ', ', then the rest's display |
| FormFields.ParseAfterPiece | src/pages/ExperiencePage.tsx:297 | a trimmed comma-free piece before a comma parses to itself then the rest |
| FormFields.ParseLeadingSpace | src/pages/ExperiencePage.tsx:297 | a leading space changes no parsed technology |
| FormFields.ReparseStable | src/pages/ExperiencePage.tsx:293-297 | displaying and re-parsing a parsed input changes nothing, so typing is stable |
| FormFields.InitialExpanded | src/pages/ExperiencePage.tsx:11 | `list[0]?.id \|\| null`: the first id when there is a non-empty one, else none |
| FormFields.ToggleExpanded | src/pages/ExperiencePage.tsx:91 | clicking the expanded entry collapses it; clicking another expands that one |
| ExperiencePage.InsertBlankTask | src/pages/ExperiencePage.tsx:55-59 | a blank row right after `index` (at the end when out of range): one longer, the other rows in order |
| ExperiencePage.InsertKeepsOrder | src/pages/ExperiencePage.tsx:57 | inserting an element keeps the rest as a subsequence |
| ExperiencePage.SetTask | src/pages/ExperiencePage.tsx:61-65 | only row `index` changes, to the new value |
| ExperiencePage.RemoveTaskAt | src/pages/ExperiencePage.tsx:67-71 | the only row is never removed; otherwise row `index` goes and the rest keep their order; an out-of-range index changes nothing |
| ExperiencePage.RemoveUndoesInsert | src/pages/ExperiencePage.tsx:55-71 | removing the blank row just inserted gives the list back |
| ExperiencePage.AddRequest | src/pages/ExperiencePage.tsx:24-32 | refused iff role or company is empty; otherwise the draft's fields with the blank tasks removed |
| ExperiencePage.ExperienceEditor.constructor | src/pages/ExperiencePage.tsx:11-22 | an empty draft with one blank task and the first entry expanded |
| ExperiencePage.ExperienceEditor.HandleAdd | src/pages/ExperiencePage.tsx:24-43 | a refused draft changes nothing; otherwise the entry is added to the store and the draft reset to empty with tasks `['']` |
| ExperiencePage.ExperienceEditor.AddTask | src/pages/ExperiencePage.tsx:55-59 | the draft's tasks get the blank row; the draft keeps a row |
| ExperiencePage.ExperienceEditor.UpdateTask | src/pages/ExperiencePage.tsx:61-65 | the draft's row `index` is set |
| ExperiencePage.ExperienceEditor.RemoveTask | src/pages/ExperiencePage.tsx:67-71 | the draft's tasks lose row `index` but never become empty |
| ExperiencePage.ExperienceEditor.EditTechnologies | src/pages/ExperiencePage.tsx:293-299 | the draft's technologies become the parsed input |
| ExperiencePage.ExperienceEditor.HandleUpdate | src/pages/ExperiencePage.tsx:45-48 | the store's `updateExperience` |
| ExperiencePage.ExperienceEditor.EditStoredTask | src/pages/ExperiencePage.tsx:171-175 | a stored entry's task row is set through a tasks-only patch |
| ExperiencePage.ExperienceEditor.HandleDelete | src/pages/ExperiencePage.tsx:50-53 | the store's `removeExperience` |
| ExperiencePage.ExperienceEditor.Toggle | src/pages/ExperiencePage.tsx:91 | the expanded entry toggles |
| ProjectsPage.AddRequest | src/pages/ProjectsPage.tsx:22-30 | refused iff the name is empty; otherwise the draft's fields with the blank highlights removed, in order |
| ProjectsPage.AddedProjectHasNoHighlights | src/pages/ProjectsPage.tsx:17-29 | the form's single blank highlight row is dropped, so an added project has no highlights |
| ProjectsPage.FieldPatch | src/pages/ProjectsPage.tsx:97-127 | an edit input's patch names one text field, never the id, highlights or technologies |
| ProjectsPage.TechnologiesPatch | src/pages/ProjectsPage.tsx:138-142 | the technologies input's patch holds the parsed list |
| ProjectsPage.FieldPatchChangesOneField | src/pages/ProjectsPage.tsx:97-127 | merging an edit input's patch changes exactly that field and keeps the id |
| ProjectsPage.TechnologiesPatchChangesOneField | src/pages/ProjectsPage.tsx:138-142 | merging the technologies patch changes only the technologies |
| ProjectsPage.HeaderTechnologies | src/pages/ProjectsPage.tsx:77-78 | with three technologies or fewer the header is their `join(', ')` |
| ProjectsPage.HeaderNamesFirstThree | src/pages/ProjectsPage.tsx:77-78 | the header parses back to the first three technologies and ends with '...' iff there are more than three |
| ProjectsPage.ProjectEditor.constructor | src/pages/ProjectsPage.tsx:11-20 | an empty draft with one blank highlight and the first project expanded |
| ProjectsPage.ProjectEditor.HandleAdd | src/pages/ProjectsPage.tsx:22-40 | an empty name changes nothing; otherwise the project is added without highlights and the draft reset |
| ProjectsPage.ProjectEditor.EditDraft | src/pages/ProjectsPage.tsx:174-207 | one draft field is set |
| ProjectsPage.ProjectEditor.EditDraftTechnologies | src/pages/ProjectsPage.tsx:218-222 | the draft's technologies become the parsed input |
| ProjectsPage.ProjectEditor.EditStored | src/pages/ProjectsPage.tsx:97-127 | the store's `updateProject` with a one-field patch |
| ProjectsPage.ProjectEditor.EditStoredTechnologies | src/pages/ProjectsPage.tsx:138-142 | the store's `updateProject` with the parsed technologies |
| ProjectsPage.ProjectEditor.HandleDelete | src/pages/ProjectsPage.tsx:42-45 | the store's `removeProject` |
| ProjectsPage.ProjectEditor.Toggle | src/pages/ProjectsPage.tsx:65 | the expanded project toggles |
| EducationPage.AddRequest | src/pages/EducationPage.tsx:21-26 | refused iff degree or institution is empty; otherwise the draft passed unchanged |
| EducationPage.DraftWithField | src/pages/EducationPage.tsx:160-204 | a draft edit sets one field; the start date has no input and is kept |
| EducationPage.FieldPatch | src/pages/EducationPage.tsx:90-128 | an edit input's patch names one field, never the id or the start date |
| EducationPage.FieldPatchChangesOneField | src/pages/EducationPage.tsx:90-128 | merging an edit input's patch changes exactly that field of that entry and keeps the id |
| EducationPage.EducationEditor.constructor | src/pages/EducationPage.tsx:10-19 | an all-empty draft and the first entry expanded |
| EducationPage.EducationEditor.HandleAdd | src/pages/EducationPage.tsx:21-36 | a refused draft changes nothing; otherwise the draft is added and reset to all-empty fields |
| EducationPage.EducationEditor.EditDraft | src/pages/EducationPage.tsx:160-204 | one draft field is set |
| EducationPage.EducationEditor.EditStored | src/pages/EducationPage.tsx:90-128 | the store's `updateEducation` with a one-field patch |
| EducationPage.EducationEditor.HandleDelete | src/pages/EducationPage.tsx:38-41 | the store's `removeEducation` |
| EducationPage.EducationEditor.Toggle | src/pages/EducationPage.tsx:61 | the expanded entry toggles |
| SkillsPage.AddSkillDecision | src/pages/SkillsPage.tsx:23-31 | blank iff nothing typed or only white space; duplicate iff the trimmed skill is already in the category (exact match); otherwise the trimmed, non-empty, new skill |
| SkillsPage.RemoveSkillFrom | src/pages/SkillsPage.tsx:38-40 | every copy of the skill goes; every copy of every other skill stays (multiset), in its order |
| SkillsPage.RemoveUndoesAdd | src/pages/SkillsPage.tsx:33-40 | removing a just-accepted skill gives the category back |
| SkillsPage.AcceptedKeepsDistinct | src/pages/SkillsPage.tsx:27-33 | appending an accepted skill keeps a category free of repeats |
| SkillsPage.OneCategoryPatch | src/pages/SkillsPage.tsx:33 | `updateSkills({ [category]: list })` sets that category and keeps the other seven |
| SkillsPage.SkillsEditor.constructor | src/pages/SkillsPage.tsx:21 | nothing typed in any category |
| SkillsPage.SkillsEditor.Type | src/pages/SkillsPage.tsx:21 | typing sets that category's input only |
| SkillsPage.SkillsEditor.HandleAddSkill | src/pages/SkillsPage.tsx:23-36 | refusals change nothing; an accepted skill is appended to that category only and its input cleared |
| SkillsPage.SkillsEditor.HandleRemoveSkill | src/pages/SkillsPage.tsx:38-42 | the skill leaves that category; the other categories are unchanged |
| CVsPage.CreateRequest | src/pages/CVsPage.tsx:23-38 | refused iff the name is blank after trimming; otherwise the untrimmed name and five empty selections ("use every record") |
| CVsPage.FormatDate | src/pages/CVsPage.tsx:73-80 | 'Never' without a date, else the formatter's text |
| CVsPage.TemplateColor | src/pages/CVsPage.tsx:82-91 | blue iff 'modern', green iff 'minimal', purple for every other value |
| CVsPage.TemplateColorsDistinct | src/pages/CVsPage.tsx:82-91 | the three templates get three different colours; classic falls to purple |
| CVsPage.VariantsPage.constructor | src/pages/CVsPage.tsx:18-21 | form hidden, empty name, classic, French |
| CVsPage.VariantsPage.ToggleNewForm | src/pages/CVsPage.tsx:103 | the form's visibility flips |
| CVsPage.VariantsPage.CancelNewForm | src/pages/CVsPage.tsx:152 | the form is hidden |
| CVsPage.VariantsPage.EditForm | src/pages/CVsPage.tsx:119-141 | name, template and language of the new variant are set |
| CVsPage.VariantsPage.HandleCreate | src/pages/CVsPage.tsx:23-43 | a blank name or a failed add changes nothing; otherwise the variant is added (never default), logged, and the form emptied and hidden |
| CVsPage.VariantsPage.HandleDelete | src/pages/CVsPage.tsx:45-66 | the default is refused before any dialog; otherwise removal happens only when confirmed; the set of defaults never changes |
| CVsPage.VariantsPage.HandleSetDefault | src/pages/CVsPage.tsx:68-71 | runs the database's corrected `setDefault` (see Findings): `id` becomes the only default, logs once |
| CommandPalette.Filtered | src/components/CommandPalette.tsx:133-140 | keeps exactly the commands whose lower-cased title or description contains the lower-cased search, or one of whose keywords (as written) contains it; list order is kept |
| CommandPalette.EmptySearchKeepsAll | src/components/CommandPalette.tsx:133-140 | an empty search lists every command, in order |
| CommandPalette.SearchIgnoresCase | src/components/CommandPalette.tsx:134-137 | two searches that lower-case alike list the same commands |
| CommandPalette.MoveDown | src/components/CommandPalette.tsx:160-162 | ArrowDown moves at most one row down and stays inside a non-empty list; on an empty list the highlight is -1 |
| CommandPalette.MoveUp | src/components/CommandPalette.tsx:163-165 | ArrowUp moves one row up and never above row 0 |
| CommandPalette.UpUndoesDown | src/components/CommandPalette.tsx:160-165 | ArrowUp after ArrowDown returns to the same row, except from the last row |
| CommandPalette.Palette.constructor | src/components/CommandPalette.tsx:31-35 | the palette starts closed, with an empty search and row 0 highlighted |
| CommandPalette.Palette.GlobalKey | src/components/CommandPalette.tsx:143-151 | Ctrl or Meta with `k` toggles the palette, Escape closes it, any other key leaves it as it was |
| CommandPalette.Palette.SetSearch | src/components/CommandPalette.tsx:173-176 | typing replaces the search; the highlight returns to row 0 exactly when the text changed, and stays inside the new list |
| CommandPalette.Palette.Run | src/components/CommandPalette.tsx:166-169 | running a command navigates to its route, closes the palette and clears the search |
| CommandPalette.Palette.PaletteKey | src/components/CommandPalette.tsx:159-171 | ArrowDown and ArrowUp move the highlight and change nothing else; Enter runs the highlighted command of the filtered list when there is one, which is exactly when the list is not empty |
| CommandPalette.Palette.Click | src/components/CommandPalette.tsx:218-225 | clicking a row navigates to that row's command, closes the palette and clears the search |
| CommandPalette.Palette.Close | src/components/CommandPalette.tsx:183-186 | the backdrop closes the palette |
| Shortcuts.FirstMatch | src/hooks/useKeyboardShortcuts.ts:21-31 | nothing fires iff no shortcut matches the event; otherwise the action is that of a matching shortcut with no matching shortcut before it |
| Shortcuts.HandleKeyDown | src/hooks/useKeyboardShortcuts.ts:14-32 | a key typed in an input, a text area or an editable element runs nothing; otherwise the first matching shortcut in order runs, and only it |
| Shortcuts.MetaFlagIgnored | src/hooks/useKeyboardShortcuts.ts:22-24 | a shortcut's `meta` flag has no effect on whether it fires |
| Shortcuts.FirstMatchAt | src/hooks/useKeyboardShortcuts.ts:21-31 | when entry `j` is the first that matches, its action runs |
| Shortcuts.FiresOnChar | src/hooks/useKeyboardShortcuts.ts:22-24 | one-character keys match when their lower-cased characters agree, Ctrl or Meta is held if the shortcut asks for Ctrl, and Shift is held exactly when it asks for Shift |
| Shortcuts.TableFires | src/hooks/useKeyboardShortcuts.ts:44-85 | which entries of the global table a one-character press matches |
| Shortcuts.SlashShowsHelp | src/hooks/useKeyboardShortcuts.ts:76-84 | `/` shows the shortcuts help with or without Ctrl, and does nothing with Shift held |
| Shortcuts.DashboardShortcut | src/hooks/useKeyboardShortcuts.ts:45-50 | Ctrl+D in either case goes to the dashboard; `d` without Ctrl and Ctrl+Shift+D do nothing |
| Shortcuts.OnlyEntryFires | src/hooks/useKeyboardShortcuts.ts:44-85 | a press whose key belongs to one entry alone, with Ctrl held and Shift as that entry asks, runs that entry |
| Shortcuts.HintD | src/hooks/useKeyboardShortcuts.ts:45-50 | Ctrl+D runs the dashboard entry |
| Shortcuts.HintP | src/hooks/useKeyboardShortcuts.ts:51-56 | Ctrl+P runs the preview entry |
| Shortcuts.HintS | src/hooks/useKeyboardShortcuts.ts:57-63 | Ctrl+Shift+S runs the share entry |
| Shortcuts.HintA | src/hooks/useKeyboardShortcuts.ts:64-69 | Ctrl+A runs the analyzer entry |
| Shortcuts.HintN | src/hooks/useKeyboardShortcuts.ts:70-75 | Ctrl+N runs the new-CV entry |
| Shortcuts.HintedRoutes | src/components/CommandPalette.tsx:37-131 | the five palette commands with a shortcut hint, their hints and their routes |
| Shortcuts.PaletteHintsAgree | src/components/CommandPalette.tsx:37-131 | every shortcut hint the palette shows is served by the global table: that key, with Ctrl and with Shift as the hint says, navigates to the command's route |
| Dashboard.Elapse | src/pages/Dashboard.tsx:33-39 | days iff at least a day has elapsed, with the number of whole days; hours iff between an hour and a day, with the number of whole hours (1 to 23); "just now" iff less than an hour, a future timestamp included |
| Dashboard.ElapseMonotone | src/pages/Dashboard.tsx:33-39 | an older timestamp never shows a shorter time |
| Dashboard.HoursText | src/pages/Dashboard.tsx:38 | an hours text ends in ` hour ago` exactly when singular and ` hours ago` exactly when plural, and never reads as days or as "Just now" |
| Dashboard.DaysText | src/pages/Dashboard.tsx:37 | a days text ends in ` day ago` exactly when singular and ` days ago` exactly when plural, and never reads as hours or as "Just now" |
| Dashboard.FormatTimeRanges | src/pages/Dashboard.tsx:31-40 | each of the five texts appears exactly on its own range of elapsed time: under an hour, one hour, two to 23 hours, one day, two days or more |
| Dashboard.ActivityIcon | src/pages/Dashboard.tsx:42-55 | each of the four entity types has its own icon, and exactly the other types get the download icon |
| Dashboard.DownloadMarksOtherTypes | src/pages/Dashboard.tsx:42-55 | an export (logged as `cvVariant`) does not get the download icon; the logged types with no icon of their own do |
| Dashboard.CompletionCaption | src/pages/Dashboard.tsx:84 | "Great job!" exactly from 80% up, "Keep adding details" below |
| Dashboard.PraiseWithoutExperience | src/pages/Dashboard.tsx:84 | with no experience the dashboard praises the profile exactly when every other checklist item is present |
| Dashboard.CountCaption | src/pages/Dashboard.tsx:90 | the caption starts with the count and the noun, and ends in `s` exactly when the count is not one |
| Dashboard.CountCaptions | src/pages/Dashboard.tsx:90-96 | the positions and projects captions are plural exactly when the count is not one |
| Dashboard.FirstName | src/pages/Dashboard.tsx:64 | the greeting's name is a prefix of the full name without a space, followed by a space or the end of the name |
| Dashboard.GreetsFirstName | src/pages/Dashboard.tsx:64 | a name made of a first name, a space and the rest greets that first name |
| Dashboard.ShownVariants | src/pages/Dashboard.tsx:146 | the first three variants, or all of them when there are fewer, in order |
| Dashboard.EmptyPromptWhenNoVariants | src/pages/Dashboard.tsx:146-175 | the "No CVs yet" prompt shows exactly when the short list is empty |

## Left out

- PDF and PNG rendering: html2canvas and jsPDF calls, the `while (heightLeft > 0)` page loop and its floating-point page heights (src/components/common/ExportMenu.tsx and the export bodies of the Preview and Share pages). Only the file names and the `lastExportedAt` write are modelled.
- The templates (Classic, Modern, Minimal) and CompletionMeter: layout and SVG geometry, no logic beyond the skill grouping already modelled.
- Dexie `orderBy` sorting: tables are unordered maps. The activity log keeps insertion order in place of timestamp order, and its entry ids are not modelled.
- Dexie `update` and `delete` on a missing key do nothing and the hook still logs the activity, as the code does; no `NotFoundError` is raised.
- `reorderExperiences` (the only reorder operation) writes whatever order it is given; the code does not check that it is a permutation of the table's ids, and neither does the model.
- `generateId` freshness: seeding requires fresh ids, and an add under an id already in its table fails, as Dexie's `ConstraintError` does.
- `toLowerCase` is modelled for ASCII letters only; other characters are kept as they are.
- Analyzer.Score: `Math.round` of a floating-point ratio is modelled as exact rounding of the rational, so a ratio a float rounds differently at exactly one half may differ. It requires a non-empty result list; `Analyzer.AnalysisScoreDefined` shows the analysis always yields one.
- The matcher's `new Set(...)` de-duplication of the user's technologies is not modelled; duplicates change neither coverage result.
- Analyzer.MatchJobDescription: the keyword list is a parameter; the page's call passes the technology keyword list `TechKeywords`.
- Analyzer.PageMatch: runs the corrected coverage, in which an empty technology covers nothing (second row of Findings); the program's coverage is `Analyzer.PageMatchAsWritten`.
- CareerDb.CareerDatabase.SetDefault and CVsPage.VariantsPage.HandleSetDefault: run the corrected `setDefault`, which clears the old default (first row of Findings); the program's transition, which keeps it, is `CareerDb.CareerDatabase.SetDefaultAsWritten` over `DbQueries.SetDefaultAsWritten`.
- The patch datatypes of `updateProfile`, `updateExperience`, `updateProject`, `updateEducation` and `updateVariant` carry no `id` and no `createdAt`, although `Partial<...>` allows them; no page passes either, so the modelled merge always keeps both.
- The composer does not filter on `isVisible`: the code keeps hidden records and leaves hiding to the templates.
- JSON import: keys that the envelope does not know are dropped, and a patch key set explicitly to `undefined` is treated as absent.
- ExperiencePage.SetTask: requires an index inside the task list, because the page only calls it for the rows it shows (an index past the end would grow the JavaScript array).
- CommandPalette.Palette.constructor: the commands are a parameter; the app passes `CommandPalette.Commands`.
- The dashboard's progress checklist (src/pages/Dashboard.tsx:115-120) and its loading spinner are not part of this model.
- Toasts, SweetAlert dialogs (their answers are parameters), the clipboard, FileReader photo uploads, theme and language switching, routing and `useLiveQuery` reactivity.

## Findings

| source | as written | input that shows it | evidently intended | confidence | as-written member | corrected member |
|---|---|---|---|---|---|---|
| src/db/hooks.ts:255 | `where('isDefault').equals(1)` selects nothing, because boolean flags are not IndexedDB keys, so the old default is never cleared | variants `a` (default) and `b` (not default), then `setDefault("b")`: both are defaults | the previous default is cleared, so `b` is the only default | not executed | DbQueries.SetDefaultAsWrittenLeavesTwo | DbQueries.SetDefaultIntended |
| src/pages/AnalyzePage.tsx:136 | `kw.includes(tech)` holds for every keyword when `tech` is the empty string | a project stored through `addProject` or `updateProject` of src/db/hooks.ts with `technologies: [""]` (no page in these files calls either, so the defect stays latent here): every keyword found in the job description counts as matched and none as missing | an empty technology covers no keyword | not executed | Analyzer.EmptyTechnologyMatchesEverything | Analyzer.IntendedPartitionIgnoresEmpty |
