/**
 * What the database hooks compute on whole tables: the reorder loop's effect, the CV-variant
 * lifecycle (add, refuse-to-remove-the-default, set-default), the completion checklist,
 * skills grouped by category, and the recent-activity query.  A table is a map from
 * primary key to record.
 */
module DbQueries {
  import opened Options
  import opened Seqs
  import opened Entities

  // ---------------- reorderExperiences ----------------

  /**
   * The table after `update(ids[i], { order: i })` for i = 0, 1, ... in turn: an id missing from
   * the table is skipped (Dexie's `update` of a missing key changes nothing), and an id listed twice
   * ends with its last position.  Only `order` ever changes.
   */
  function Reordered(t: map<string, Experience>, ids: seq<string>): (r: map<string, Experience>)
    ensures r.Keys == t.Keys
    ensures forall k :: k in t ==> r[k] == t[k].(order := r[k].order)
    decreases |ids|
  {
    if ids == [] then t
    else
      var i := |ids| - 1;
      var prev := Reordered(t, ids[..i]);
      if ids[i] in prev then prev[ids[i] := prev[ids[i]].(order := i)] else prev
  }

  /** The last position of `k` in `ids`, or -1 when it is not listed. */
  function LastIndex(ids: seq<string>, k: string): (r: int)
    ensures -1 <= r < |ids|
    ensures r >= 0 ==> ids[r] == k
    ensures forall j :: r < j < |ids| ==> ids[j] != k
    decreases |ids|
  {
    if ids == [] then -1
    else if ids[|ids| - 1] == k then |ids| - 1
    else LastIndex(ids[..|ids| - 1], k)
  }

  /** After reordering, a listed record's `order` is its last position in the list; an unlisted record is untouched. */
  lemma {:induction false} ReorderedOrder(t: map<string, Experience>, ids: seq<string>, k: string)
    requires k in t
    ensures Reordered(t, ids)[k] == if k in ids then t[k].(order := LastIndex(ids, k)) else t[k]
    decreases |ids|
  {
    if ids != [] {
      var i := |ids| - 1;
      ReorderedOrder(t, ids[..i], k);
      assert ids == ids[..i] + [ids[i]];
      assert k in ids <==> k in ids[..i] || k == ids[i];
    }
  }

  /** With no id listed twice, `ids[i]` ends with `order == i`. */
  lemma ReorderedAtIndex(t: map<string, Experience>, ids: seq<string>, i: int)
    requires Distinct(ids) && 0 <= i < |ids| && ids[i] in t
    ensures Reordered(t, ids)[ids[i]].order == i
  {
    ReorderedOrder(t, ids, ids[i]);
    var j := LastIndex(ids, ids[i]);
    assert j == i;
  }

  /** When `ids` lists every key exactly once, the orders become exactly 0 .. n-1, pairwise distinct. */
  lemma ReorderedPermutationDense(t: map<string, Experience>, ids: seq<string>)
    requires Distinct(ids)
    requires forall k :: k in t <==> k in ids
    ensures forall k :: k in t ==> 0 <= Reordered(t, ids)[k].order < |ids| && ids[Reordered(t, ids)[k].order] == k
  {
    forall k | k in t
      ensures 0 <= Reordered(t, ids)[k].order < |ids| && ids[Reordered(t, ids)[k].order] == k
    {
      ReorderedOrder(t, ids, k);
    }
  }

  /** An experience record with the given id and order, the rest blank: material for the examples below. */
  function SampleExperience(id: string, order: int): (e: Experience)
    ensures e.id == id && e.order == order
  {
    Experience(id, "", "", "", "", "", [], [], true, order, 0, 0)
  }

  /** No permutation check: reordering with a list that omits a record can leave two records with the same `order`. */
  lemma ReorderPartialListCollides()
    ensures var t := map["a" := SampleExperience("a", 0), "b" := SampleExperience("b", 1)];
            Reordered(t, ["b"])["a"].order == 0 && Reordered(t, ["b"])["b"].order == 0
  {
    var t := map["a" := SampleExperience("a", 0), "b" := SampleExperience("b", 1)];
    ReorderedOrder(t, ["b"], "a");
    ReorderedOrder(t, ["b"], "b");
  }

  // ---------------- CV-variant lifecycle ----------------

  /** The ids of the variants flagged as default. */
  function DefaultIds(t: map<string, CVVariant>): (r: set<string>)
    ensures forall k :: k in r <==> k in t && t[k].isDefault
  {
    set k | k in t && t[k].isDefault
  }

  /** At most one variant is the default. */
  predicate AtMostOneDefault(t: map<string, CVVariant>) {
    forall a, b :: a in DefaultIds(t) && b in DefaultIds(t) ==> a == b
  }

  /** `addVariant`: a fresh id is inserted with a record that is never the default. */
  function AddVariantTo(t: map<string, CVVariant>, d: VariantInput, id: string, now: int): (r: map<string, CVVariant>)
    requires id !in t
    ensures r.Keys == t.Keys + {id}
    ensures DefaultIds(r) == DefaultIds(t)
    ensures forall k :: k in t ==> r[k] == t[k]
  {
    t[id := NewVariant(d, id, now)]
  }

  /** `removeVariant`: refused with an error when the variant is the default; otherwise the key is deleted (a missing key is a no-op). */
  function RemoveVariantFrom(t: map<string, CVVariant>, id: string): (r: Result<map<string, CVVariant>>)
    ensures r.Err? <==> id in t && t[id].isDefault
    ensures r.Err? ==> r.message == "Cannot delete default CV variant"
    ensures r.Ok? ==> r.value == t - {id} && DefaultIds(r.value) == DefaultIds(t)
  {
    if id in t && t[id].isDefault then Err("Cannot delete default CV variant") else Ok(t - {id})
  }

  /**
   * The key a variant has in the `isDefault` index.  IndexedDB accepts numbers, strings, dates,
   * binary data and arrays as keys, but not booleans, so a record whose `isDefault` is `true` or
   * `false` is left out of that index: it has no key there.
   */
  function IsDefaultIndexKey(v: CVVariant): (r: Option<int>)
    ensures r.None?
  {
    None
  }

  /** `where('isDefault').equals(key)`: the records whose index key is `key`. */
  function WhereIsDefaultEquals(t: map<string, CVVariant>, key: int): (r: set<string>)
    ensures forall k :: k in r <==> k in t && IsDefaultIndexKey(t[k]) == Some(key)
  {
    set k | k in t && IsDefaultIndexKey(t[k]) == Some(key)
  }

  /** `.modify({ isDefault: value })` on the records whose keys are in `keys`. */
  function ModifyIsDefault(t: map<string, CVVariant>, keys: set<string>, value: bool): (r: map<string, CVVariant>)
    ensures r.Keys == t.Keys
    ensures forall k :: k in t ==> r[k] == if k in keys then t[k].(isDefault := value) else t[k]
  {
    map k | k in t :: if k in keys then t[k].(isDefault := value) else t[k]
  }

  /** `update(id, { isDefault: value })`: a missing key is a no-op. */
  function UpdateIsDefault(t: map<string, CVVariant>, id: string, value: bool): (r: map<string, CVVariant>)
    ensures r.Keys == t.Keys
    ensures forall k :: k in t ==> r[k] == if k == id then t[k].(isDefault := value) else t[k]
  {
    if id in t then t[id := t[id].(isDefault := value)] else t
  }

  /** `setDefault` as written: clear the records the index finds under key 1, then flag `id`. */
  function SetDefaultAsWritten(t: map<string, CVVariant>, id: string): (r: map<string, CVVariant>)
    ensures r.Keys == t.Keys
    ensures forall k :: k in t ==> r[k] == t[k].(isDefault := r[k].isDefault)
  {
    UpdateIsDefault(ModifyIsDefault(t, WhereIsDefaultEquals(t, 1), false), id, true)
  }

  /** As written, the clearing step finds nothing: every earlier default stays a default. */
  lemma SetDefaultAsWrittenKeepsDefaults(t: map<string, CVVariant>, id: string)
    ensures DefaultIds(SetDefaultAsWritten(t, id)) == DefaultIds(t) + (if id in t then {id} else {})
  {
    assert WhereIsDefaultEquals(t, 1) == {};
    var r := SetDefaultAsWritten(t, id);
    forall k ensures k in DefaultIds(r) <==> k in DefaultIds(t) + (if id in t then {id} else {}) {
    }
  }

  /** A variant record with the given id and default flag, the rest blank: material for the example below. */
  function SampleVariant(id: string, isDefault: bool): (v: CVVariant)
    ensures v.id == id && v.isDefault == isDefault
  {
    CVVariant(id, "", Fr, Classic, [], [], [], [], [], None, isDefault, 0, 0, None)
  }

  /** The discrepancy: making "b" the default while "a" is the default leaves both flagged. */
  lemma SetDefaultAsWrittenLeavesTwo()
    ensures var t := map["a" := SampleVariant("a", true), "b" := SampleVariant("b", false)];
            DefaultIds(SetDefaultAsWritten(t, "b")) == {"a", "b"} && !AtMostOneDefault(SetDefaultAsWritten(t, "b"))
  {
    var t := map["a" := SampleVariant("a", true), "b" := SampleVariant("b", false)];
    SetDefaultAsWrittenKeepsDefaults(t, "b");
    assert DefaultIds(t) == {"a"};
    var r := SetDefaultAsWritten(t, "b");
    assert "a" in DefaultIds(r) && "b" in DefaultIds(r);
  }

  /**
   * `setDefault` as its comment says ("Unset current default", then set the new one): every
   * default flag is cleared, then `id` is flagged.  Only `isDefault` changes; `updatedAt` is not touched.
   */
  function SetDefaultIntended(t: map<string, CVVariant>, id: string): (r: map<string, CVVariant>)
    ensures r.Keys == t.Keys
    ensures DefaultIds(r) == if id in t then {id} else {}
    ensures AtMostOneDefault(r)
    ensures forall k :: k in t ==> r[k] == t[k].(isDefault := r[k].isDefault)
  {
    var cleared := ModifyIsDefault(t, DefaultIds(t), false);
    var r := UpdateIsDefault(cleared, id, true);
    assert forall k :: k in r ==> (r[k].isDefault <==> k == id);
    r
  }

  /** Adding a variant and removing a non-default one keep "at most one default". */
  lemma VariantLifecycleKeepsAtMostOneDefault(t: map<string, CVVariant>, d: VariantInput, id: string, now: int, gone: string)
    requires AtMostOneDefault(t)
    ensures id !in t ==> AtMostOneDefault(AddVariantTo(t, d, id, now))
    ensures RemoveVariantFrom(t, gone).Ok? ==> AtMostOneDefault(RemoveVariantFrom(t, gone).value)
  {
  }

  /** The default variant can never be removed: removal either fails or leaves the default set as it was. */
  lemma DefaultSurvivesRemoval(t: map<string, CVVariant>, id: string)
    requires id in DefaultIds(t)
    ensures RemoveVariantFrom(t, id) == Err("Cannot delete default CV variant")
  {
  }

  // ---------------- completion checklist (useCareerStats) ----------------

  /** One line of the completion checklist: whether it is met and what it is worth. */
  datatype ChecklistItem = ChecklistItem(met: bool, weight: nat)

  /** A JavaScript string is truthy when it is not empty. */
  predicate Truthy(s: string) {
    s != ""
  }

  /** The nine weighted checks: name 15, email 10, phone 5, GitHub 5, LinkedIn 5, experience 20, projects 15, skills 15, education 10. */
  function Checklist(profile: Option<Profile>, experiences: nat, projects: nat, skills: nat, education: nat): (r: seq<ChecklistItem>)
    ensures |r| == 9
  {
    var p := profile.Some?;
    [ ChecklistItem(p && Truthy(profile.value.name), 15),
      ChecklistItem(p && Truthy(profile.value.email), 10),
      ChecklistItem(p && Truthy(profile.value.phone), 5),
      ChecklistItem(p && Truthy(profile.value.github), 5),
      ChecklistItem(p && Truthy(profile.value.linkedin), 5),
      ChecklistItem(experiences > 0, 20),
      ChecklistItem(projects > 0, 15),
      ChecklistItem(skills > 0, 15),
      ChecklistItem(education > 0, 10) ]
  }

  /** The sum of the weights of the met items from position `i` on. */
  function EarnedFrom(items: seq<ChecklistItem>, i: nat): nat
    requires i <= |items|
    decreases |items| - i
  {
    if i == |items| then 0 else (if items[i].met then items[i].weight else 0) + EarnedFrom(items, i + 1)
  }

  /** The sum of all weights from position `i` on. */
  function TotalFrom(items: seq<ChecklistItem>, i: nat): nat
    requires i <= |items|
    decreases |items| - i
  {
    if i == |items| then 0 else items[i].weight + TotalFrom(items, i + 1)
  }

  /** The sum of the weights of the met items. */
  function EarnedWeight(items: seq<ChecklistItem>): nat {
    EarnedFrom(items, 0)
  }

  /** The sum of all weights. */
  function TotalWeight(items: seq<ChecklistItem>): nat {
    TotalFrom(items, 0)
  }

  lemma {:induction false} EarnedFromWithinTotal(items: seq<ChecklistItem>, i: nat)
    requires i <= |items|
    ensures EarnedFrom(items, i) <= TotalFrom(items, i)
    ensures (forall j :: i <= j < |items| ==> items[j].met) ==> EarnedFrom(items, i) == TotalFrom(items, i)
    ensures (forall j :: i <= j < |items| ==> !items[j].met) ==> EarnedFrom(items, i) == 0
    decreases |items| - i
  {
    if i < |items| {
      EarnedFromWithinTotal(items, i + 1);
    }
  }

  /** What is earned never exceeds the total; it equals it exactly when every item is met, and is 0 when none is. */
  lemma EarnedWithinTotal(items: seq<ChecklistItem>)
    ensures EarnedWeight(items) <= TotalWeight(items)
    ensures (forall i :: 0 <= i < |items| ==> items[i].met) ==> EarnedWeight(items) == TotalWeight(items)
    ensures (forall i :: 0 <= i < |items| ==> !items[i].met) ==> EarnedWeight(items) == 0
  {
    EarnedFromWithinTotal(items, 0);
  }

  /** The weights add up to exactly 100, whatever the profile and counts. */
  lemma ChecklistTotals100(profile: Option<Profile>, experiences: nat, projects: nat, skills: nat, education: nat)
    ensures TotalWeight(Checklist(profile, experiences, projects, skills, education)) == 100
  {
    var items := Checklist(profile, experiences, projects, skills, education);
    assert TotalFrom(items, 9) == 0;
    assert TotalFrom(items, 8) == 10;
    assert TotalFrom(items, 7) == 25;
    assert TotalFrom(items, 6) == 40;
    assert TotalFrom(items, 5) == 60;
    assert TotalFrom(items, 4) == 65;
    assert TotalFrom(items, 3) == 70;
    assert TotalFrom(items, 2) == 75;
    assert TotalFrom(items, 1) == 85;
  }

  /** The earned weight of the checklist, item by item. */
  lemma ChecklistEarned(profile: Option<Profile>, experiences: nat, projects: nat, skills: nat, education: nat)
    ensures var p := profile.Some?;
      EarnedWeight(Checklist(profile, experiences, projects, skills, education))
      == (if p && Truthy(profile.value.name) then 15 else 0) + (if p && Truthy(profile.value.email) then 10 else 0)
       + (if p && Truthy(profile.value.phone) then 5 else 0) + (if p && Truthy(profile.value.github) then 5 else 0)
       + (if p && Truthy(profile.value.linkedin) then 5 else 0) + (if experiences > 0 then 20 else 0)
       + (if projects > 0 then 15 else 0) + (if skills > 0 then 15 else 0) + (if education > 0 then 10 else 0)
  {
    var items := Checklist(profile, experiences, projects, skills, education);
    assert EarnedFrom(items, 9) == 0;
    assert EarnedFrom(items, 8) == (if items[8].met then 10 else 0);
    assert EarnedFrom(items, 7) == EarnedFrom(items, 8) + (if items[7].met then 15 else 0);
    assert EarnedFrom(items, 6) == EarnedFrom(items, 7) + (if items[6].met then 15 else 0);
    assert EarnedFrom(items, 5) == EarnedFrom(items, 6) + (if items[5].met then 20 else 0);
    assert EarnedFrom(items, 4) == EarnedFrom(items, 5) + (if items[4].met then 5 else 0);
    assert EarnedFrom(items, 3) == EarnedFrom(items, 4) + (if items[3].met then 5 else 0);
    assert EarnedFrom(items, 2) == EarnedFrom(items, 3) + (if items[2].met then 5 else 0);
    assert EarnedFrom(items, 1) == EarnedFrom(items, 2) + (if items[1].met then 10 else 0);
  }

  /** `Math.min(completion, 100)` of the earned weight. */
  function Completion(profile: Option<Profile>, experiences: nat, projects: nat, skills: nat, education: nat): (r: int)
    ensures 0 <= r <= 100
    ensures r == EarnedWeight(Checklist(profile, experiences, projects, skills, education))
  {
    var items := Checklist(profile, experiences, projects, skills, education);
    EarnedWithinTotal(items);
    ChecklistTotals100(profile, experiences, projects, skills, education);
    var c := EarnedWeight(items);
    if c < 100 then c else 100
  }

  /** A complete profile with at least one entry in each counted table scores 100; no profile and empty tables score 0. */
  lemma CompletionExtremes(p: Profile, experiences: nat, projects: nat, skills: nat, education: nat)
    ensures Truthy(p.name) && Truthy(p.email) && Truthy(p.phone) && Truthy(p.github) && Truthy(p.linkedin)
            && experiences > 0 && projects > 0 && skills > 0 && education > 0
            ==> Completion(Some(p), experiences, projects, skills, education) == 100
    ensures Completion(None, 0, 0, 0, 0) == 0
  {
    var items := Checklist(Some(p), experiences, projects, skills, education);
    EarnedWithinTotal(items);
    ChecklistTotals100(Some(p), experiences, projects, skills, education);
    EarnedWithinTotal(Checklist(None, 0, 0, 0, 0));
  }

  // ---------------- skillsByCategory ----------------

  /** The test the grouping applies: does the skill belong to category `c`? */
  function InCategory(c: SkillCategory): (Skill -> bool) {
    (s: Skill) => s.category == c
  }

  /**
   * The `reduce` of skillsByCategory: walk the skills in order and push each onto its category's
   * list, creating the list on first use.  A category with no skill has no entry.
   */
  function GroupByCategory(all: seq<Skill>): (r: map<SkillCategory, seq<Skill>>)
    decreases |all|
  {
    if all == [] then map[]
    else
      var acc := GroupByCategory(all[..|all| - 1]);
      var s := all[|all| - 1];
      acc[s.category := (if s.category in acc then acc[s.category] else []) + [s]]
  }

  /** Each category's list is exactly the skills of that category, in their original order; an empty category has no entry. */
  lemma {:induction false} GroupByCategoryIsFilter(all: seq<Skill>, c: SkillCategory)
    ensures c in GroupByCategory(all) <==> Filter(all, InCategory(c)) != []
    ensures c in GroupByCategory(all) ==> GroupByCategory(all)[c] == Filter(all, InCategory(c))
    decreases |all|
  {
    if all != [] {
      var n := |all| - 1;
      GroupByCategoryIsFilter(all[..n], c);
      assert all == all[..n] + [all[n]];
      FilterAppend(all[..n], [all[n]], InCategory(c));
      assert Filter([all[n]], InCategory(c)) == (if all[n].category == c then [all[n]] else []);
    }
  }

  /** Category `c` has a list exactly when some skill has category `c`. */
  lemma GroupByCategoryHas(all: seq<Skill>, c: SkillCategory)
    ensures c in GroupByCategory(all) <==> exists s :: s in all && s.category == c
  {
    GroupByCategoryIsFilter(all, c);
    var f := Filter(all, InCategory(c));
    if f != [] {
      assert f[0] in f;
    }
    if exists s :: s in all && s.category == c {
      var s :| s in all && s.category == c;
      assert InCategory(c)(s);
      assert s in f;
    }
  }

  /** A category has a list exactly when some skill has that category, and the list holds exactly the skills of that category. */
  lemma GroupByCategoryMembers(all: seq<Skill>)
    ensures forall c :: c in GroupByCategory(all) <==> exists s :: s in all && s.category == c
    ensures forall c, s :: c in GroupByCategory(all) ==> (s in GroupByCategory(all)[c] <==> s in all && s.category == c)
  {
    forall c ensures c in GroupByCategory(all) <==> exists s :: s in all && s.category == c {
      GroupByCategoryHas(all, c);
    }
    forall c, s | c in GroupByCategory(all) ensures s in GroupByCategory(all)[c] <==> s in all && s.category == c {
      GroupByCategoryIsFilter(all, c);
      assert InCategory(c)(s) <==> s.category == c;
    }
  }

  /** Every skill lands in its own category's list and in no other. */
  lemma SkillInExactlyItsCategory(all: seq<Skill>, s: Skill, c: SkillCategory)
    requires s in all
    ensures s.category == c ==> c in GroupByCategory(all) && s in GroupByCategory(all)[c]
    ensures s.category != c && c in GroupByCategory(all) ==> s !in GroupByCategory(all)[c]
  {
    GroupByCategoryIsFilter(all, c);
  }

  // ---------------- useActivityLog ----------------

  /** `orderBy('timestamp').reverse().limit(limit)`, with entries in log order standing for timestamp order: the newest `limit` entries, newest first. */
  function RecentActivity(log: seq<ActivityEntry>, limit: nat): (r: seq<ActivityEntry>)
    ensures |r| == if limit < |log| then limit else |log|
    ensures forall i :: 0 <= i < |r| ==> r[i] == log[|log| - 1 - i]
  {
    var n := if limit < |log| then limit else |log|;
    seq(n, i requires 0 <= i < n => log[|log| - 1 - i])
  }
}
