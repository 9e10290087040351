/**
 * The skills editor page: one text input per skill category, adding the trimmed input to that
 * category unless it is blank or already there, and removing a skill from one category.
 */
module SkillsPage {
  import opened Options
  import opened Seqs
  import opened Text
  import opened Entities
  import opened CVStore

  /** What `handleAddSkill` does with the input of a category. */
  datatype SkillAdd = Blank | Duplicate | Accepted(skill: string)

  /**
   * `newSkill[category]?.trim()`, then the two refusals: nothing typed or only white space, and a
   * skill already in the category (exact, case-sensitive comparison).
   */
  function AddSkillDecision(current: seq<string>, input: Option<string>): (r: SkillAdd)
    ensures r == Blank <==> input.None? || AllWhitespace(input.value)
    ensures r == Duplicate <==> input.Some? && !AllWhitespace(input.value) && Trim(input.value) in current
    ensures r.Accepted? ==> r.skill == Trim(input.value) && r.skill !in current && r.skill != [] && IsTrimmed(r.skill)
  {
    if input.None? then Blank
    else
      var skill := Trim(input.value);
      if skill == "" then Blank
      else if skill in current then Duplicate
      else Accepted(skill)
  }

  /** `currentSkills.filter(s => s !== skill)`: every copy of `skill` goes, the rest keep their order. */
  function RemoveSkillFrom(current: seq<string>, skill: string): (r: seq<string>)
    ensures forall s :: s in r <==> s in current && s != skill
    ensures IsSubsequence(r, current)
    ensures forall s :: multiset(r)[s] == if s != skill then multiset(current)[s] else 0
  {
    FilterIsSubsequence(current, s => s != skill);
    FilterMultiset(current, s => s != skill);
    Filter(current, s => s != skill)
  }

  /** Removing a skill that was just accepted gives the category back as it was. */
  lemma RemoveUndoesAdd(current: seq<string>, skill: string)
    requires skill !in current
    ensures RemoveSkillFrom(current + [skill], skill) == current
  {
    var p := (s: string) => s != skill;
    FilterAppend(current, [skill], p);
    FilterKeepsAll(current, p);
    assert Filter([skill], p) == [];
  }

  /** Appending an accepted skill keeps a category free of repeats. */
  lemma AcceptedKeepsDistinct(current: seq<string>, input: Option<string>)
    requires Distinct(current)
    requires AddSkillDecision(current, input).Accepted?
    ensures Distinct(current + [AddSkillDecision(current, input).skill])
  {
    var skill := AddSkillDecision(current, input).skill;
    var r := current + [skill];
    forall i, j | 0 <= i < j < |r| ensures r[i] != r[j] {
      if j == |current| {
        assert r[i] == current[i] && current[i] in current;
      } else {
        assert r[i] == current[i] && r[j] == current[j];
      }
    }
  }

  /** A skills patch naming one category sets that category to the given list and leaves the other seven as they were. */
  lemma OneCategoryPatch(st: StoreState, c: SkillCategory, list: seq<string>)
    ensures UpdateSkills(st, map[c := list]).cv.skills.Get(c) == list
    ensures forall d :: d != c ==> UpdateSkills(st, map[c := list]).cv.skills.Get(d) == st.cv.skills.Get(d)
  {
  }

  /** The page: the text typed for each category, and the document store it edits. */
  class SkillsEditor {
    var store: StoreState
    var newSkill: map<SkillCategory, string>

    /** The page opens with nothing typed in any category. */
    constructor (store: StoreState)
      ensures this.store == store && newSkill == map[]
    {
      this.store := store;
      newSkill := map[];
    }

    /** Typing in the input of category `c`. */
    method Type(c: SkillCategory, value: string)
      modifies this`newSkill
      ensures newSkill == old(newSkill)[c := value]
    {
      newSkill := newSkill[c := value];
    }

    /**
     * `handleAddSkill(category)`: a blank input or a skill already in the category changes
     * nothing; otherwise the trimmed skill is appended to that category only and its input is
     * cleared.
     */
    method HandleAddSkill(c: SkillCategory) returns (outcome: SkillAdd)
      modifies this`store, this`newSkill
      ensures outcome == AddSkillDecision(old(store).cv.skills.Get(c), if c in old(newSkill) then Some(old(newSkill)[c]) else None)
      ensures !outcome.Accepted? ==> store == old(store) && newSkill == old(newSkill)
      ensures outcome.Accepted? ==>
        && store == UpdateSkills(old(store), map[c := old(store).cv.skills.Get(c) + [outcome.skill]])
        && newSkill == old(newSkill)[c := ""]
    {
      var current := store.cv.skills.Get(c);
      outcome := AddSkillDecision(current, if c in newSkill then Some(newSkill[c]) else None);
      if outcome.Accepted? {
        store := UpdateSkills(store, map[c := current + [outcome.skill]]);
        newSkill := newSkill[c := ""];
      }
    }

    /** `handleRemoveSkill(category, skill)`: every copy of `skill` leaves that category; the others are unchanged. */
    method HandleRemoveSkill(c: SkillCategory, skill: string)
      modifies this`store
      ensures store == UpdateSkills(old(store), map[c := RemoveSkillFrom(old(store).cv.skills.Get(c), skill)])
      ensures skill !in store.cv.skills.Get(c)
      ensures forall d :: d != c ==> store.cv.skills.Get(d) == old(store).cv.skills.Get(d)
    {
      store := UpdateSkills(store, map[c := RemoveSkillFrom(store.cv.skills.Get(c), skill)]);
    }
  }
}
