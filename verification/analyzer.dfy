/**
 * The CV analysis page: a fixed list of completeness rules over the stored records, the score
 * they give, and the match of a job description against the owner's technologies.
 */
module Analyzer {
  import opened Options
  import opened Seqs
  import opened Text
  import opened Entities

  datatype Kind = Success | Warning | Info

  datatype AnalysisResult = AnalysisResult(kind: Kind, category: string, message: string, suggestion: Option<string>)

  // ----- The profile rules -----

  const NameMissing := AnalysisResult(Warning, "Profile", "Name is missing", Some("Add your full name"))
  const EmailMissing := AnalysisResult(Warning, "Profile", "Email is missing", Some("Add your email address"))
  const PhoneMissing := AnalysisResult(Info, "Profile", "Phone number is missing", Some("Consider adding a phone number"))
  const GithubMissing := AnalysisResult(Info, "Profile", "GitHub is missing", Some("Add your GitHub to showcase your work"))
  const LinkedinMissing :=
    AnalysisResult(Info, "Profile", "LinkedIn is missing", Some("Add your LinkedIn for professional networking"))
  const ContactComplete := AnalysisResult(Success, "Profile", "Contact info is complete", None)

  /** `profile?.name` and the other contact fields are truthy: there is a profile and the field is not empty. */
  predicate HasName(p: Option<Profile>) { p.Some? && p.value.name != "" }
  predicate HasEmail(p: Option<Profile>) { p.Some? && p.value.email != "" }
  predicate HasPhone(p: Option<Profile>) { p.Some? && p.value.phone != "" }
  predicate HasGithub(p: Option<Profile>) { p.Some? && p.value.github != "" }
  predicate HasLinkedin(p: Option<Profile>) { p.Some? && p.value.linkedin != "" }

  /** `if (c) results.push(x)`, as a list. */
  function When(c: bool, x: AnalysisResult): (r: seq<AnalysisResult>)
    ensures r == [] <==> !c
    ensures c ==> r == [x]
  {
    if c then [x] else []
  }

  /** A conditional push adds one result of its own kind when the condition holds, and nothing otherwise. */
  lemma WhenCounts(c: bool, x: AnalysisResult, k: Kind)
    ensures CountKind(When(c, x), k) == (if c && x.kind == k then 1 else 0)
  {
    if c {
      assert When(c, x)[1..] == [];
    }
  }

  /** The profile rules: a missing name or email warns, a missing phone, GitHub or LinkedIn only informs. */
  function ProfileChecks(p: Option<Profile>): (r: seq<AnalysisResult>)
    ensures forall x :: x in r ==> x.category == "Profile"
  {
    When(!HasName(p), NameMissing) + When(!HasEmail(p), EmailMissing) + When(!HasPhone(p), PhoneMissing)
    + When(!HasGithub(p), GithubMissing) + When(!HasLinkedin(p), LinkedinMissing)
    + When(HasName(p) && HasEmail(p), ContactComplete)
  }

  /**
   * The profile rules give one success, 'Contact info is complete', exactly when name and email
   * are there; one warning for each of a missing name and a missing email; and only information
   * for a missing phone, GitHub or LinkedIn.
   */
  lemma ProfileCounts(p: Option<Profile>)
    ensures ContactComplete in ProfileChecks(p) <==> HasName(p) && HasEmail(p)
    ensures CountKind(ProfileChecks(p), Success) == (if HasName(p) && HasEmail(p) then 1 else 0)
    ensures CountKind(ProfileChecks(p), Warning) == (if HasName(p) then 0 else 1) + (if HasEmail(p) then 0 else 1)
    ensures CountKind(ProfileChecks(p), Info)
         == (if HasPhone(p) then 0 else 1) + (if HasGithub(p) then 0 else 1) + (if HasLinkedin(p) then 0 else 1)
  {
    ProfileKindSum(p, Success);
    ProfileKindSum(p, Warning);
    ProfileKindSum(p, Info);
    ProfileWhenCounts(p, Success);
    ProfileWhenCounts(p, Warning);
    ProfileWhenCounts(p, Info);
    var a := When(!HasName(p), NameMissing) + When(!HasEmail(p), EmailMissing) + When(!HasPhone(p), PhoneMissing)
             + When(!HasGithub(p), GithubMissing) + When(!HasLinkedin(p), LinkedinMissing);
    assert forall x :: x in a ==> x.kind != Success;
  }

  /** The profile results of one kind are those of the six rules added up. */
  lemma ProfileKindSum(p: Option<Profile>, k: Kind)
    ensures CountKind(ProfileChecks(p), k)
         == CountKind(When(!HasName(p), NameMissing), k) + CountKind(When(!HasEmail(p), EmailMissing), k)
          + CountKind(When(!HasPhone(p), PhoneMissing), k) + CountKind(When(!HasGithub(p), GithubMissing), k)
          + CountKind(When(!HasLinkedin(p), LinkedinMissing), k) + CountKind(When(HasName(p) && HasEmail(p), ContactComplete), k)
  {
    var w1, w2, w3 := When(!HasName(p), NameMissing), When(!HasEmail(p), EmailMissing), When(!HasPhone(p), PhoneMissing);
    var w4, w5, w6 := When(!HasGithub(p), GithubMissing), When(!HasLinkedin(p), LinkedinMissing),
                      When(HasName(p) && HasEmail(p), ContactComplete);
    assert ProfileChecks(p) == w1 + w2 + w3 + w4 + w5 + w6;
    CountKindAppend(w1, w2, k);
    CountKindAppend(w1 + w2, w3, k);
    CountKindAppend(w1 + w2 + w3, w4, k);
    CountKindAppend(w1 + w2 + w3 + w4, w5, k);
    CountKindAppend(w1 + w2 + w3 + w4 + w5, w6, k);
  }

  /** What each of the six profile rules contributes to the count of kind `k`. */
  lemma ProfileWhenCounts(p: Option<Profile>, k: Kind)
    ensures CountKind(When(!HasName(p), NameMissing), k) == (if !HasName(p) && k == Warning then 1 else 0)
    ensures CountKind(When(!HasEmail(p), EmailMissing), k) == (if !HasEmail(p) && k == Warning then 1 else 0)
    ensures CountKind(When(!HasPhone(p), PhoneMissing), k) == (if !HasPhone(p) && k == Info then 1 else 0)
    ensures CountKind(When(!HasGithub(p), GithubMissing), k) == (if !HasGithub(p) && k == Info then 1 else 0)
    ensures CountKind(When(!HasLinkedin(p), LinkedinMissing), k) == (if !HasLinkedin(p) && k == Info then 1 else 0)
    ensures CountKind(When(HasName(p) && HasEmail(p), ContactComplete), k)
         == (if HasName(p) && HasEmail(p) && k == Success then 1 else 0)
  {
    WhenCounts(!HasName(p), NameMissing, k);
    WhenCounts(!HasEmail(p), EmailMissing, k);
    WhenCounts(!HasPhone(p), PhoneMissing, k);
    WhenCounts(!HasGithub(p), GithubMissing, k);
    WhenCounts(!HasLinkedin(p), LinkedinMissing, k);
    WhenCounts(HasName(p) && HasEmail(p), ContactComplete, k);
  }

  // ----- Experience -----

  const FewTasks :=
    AnalysisResult(Warning, "Experience", "Some experiences have few tasks", Some("Add 3-5 bullet points per experience"))

  /** The one result about how many experiences there are. */
  function ExperienceCount(n: nat): (r: AnalysisResult)
    ensures r.category == "Experience"
    ensures r.kind == (if n == 0 then Warning else if n == 1 then Info else Success)
  {
    if n == 0 then
      AnalysisResult(Warning, "Experience", "No experience added", Some("Add at least one work experience or internship"))
    else if n < 2 then
      AnalysisResult(Info, "Experience", "Only 1 experience entry", Some("Consider adding more relevant experiences"))
    else AnalysisResult(Success, "Experience", NatToString(n) + " experiences documented", None)
  }

  /** An entry with fewer than two tasks. */
  predicate FewTasksEntry(e: Experience) {
    |e.tasks| < 2
  }

  /** Exactly one result about the count, and one warning more when an entry has fewer than two tasks. */
  function ExperienceChecks(es: seq<Experience>): (r: seq<AnalysisResult>)
    ensures r != [] && r[0] == ExperienceCount(|es|)
    ensures |r| == if es != [] && exists e :: e in es && |e.tasks| < 2 then 2 else 1
    ensures |r| == 2 ==> r[1] == FewTasks
  {
    if es == [] then [ExperienceCount(0)]
    else
      var few := Filter(es, FewTasksEntry);
      assert (exists e :: e in es && |e.tasks| < 2) <==> few != [] by {
        if few != [] {
          assert few[0] in few;
        }
      }
      [ExperienceCount(|es|)] + (if |few| > 0 then [FewTasks] else [])
  }

  // ----- Projects -----

  const NoProjects := AnalysisResult(Warning, "Projects", "No projects added", Some("Add projects to showcase your skills"))
  const NoProjectLinks :=
    AnalysisResult(Info, "Projects", "No project links", Some("Add GitHub/demo links to your projects"))

  /** `p.link` is truthy. */
  predicate HasLink(p: Project) {
    p.link.Some? && p.link.value != ""
  }

  /** No projects warns; otherwise two or more projects succeed, and one result says whether any has a link. */
  function ProjectChecks(ps: seq<Project>): (r: seq<AnalysisResult>)
    ensures ps == [] ==> r == [NoProjects]
    ensures ps != [] ==> |r| == (if |ps| >= 2 then 2 else 1)
    ensures ps != [] ==> (NoProjectLinks in r <==> forall p :: p in ps ==> !HasLink(p))
    ensures ps != [] ==> (r[|r| - 1].kind == Success <==> exists p :: p in ps && HasLink(p))
    ensures forall x :: x in r ==> x.category == "Projects"
  {
    if ps == [] then [NoProjects]
    else
      var linked := Filter(ps, HasLink);
      (if |ps| >= 2 then [AnalysisResult(Success, "Projects", NatToString(|ps|) + " projects documented", None)] else [])
      + (if |linked| == 0 then [NoProjectLinks]
         else
           assert linked[0] in linked;
           [AnalysisResult(Success, "Projects", NatToString(|linked|) + " projects have links", None)])
  }

  // ----- Skills, education, certifications: one result each -----

  /** No skills warns, ten or more succeed, anything between informs. */
  function SkillChecks(ss: seq<Skill>): (r: seq<AnalysisResult>)
    ensures |r| == 1 && r[0].category == "Skills"
    ensures r[0].kind == (if ss == [] then Warning else if |ss| >= 10 then Success else Info)
  {
    if ss == [] then [AnalysisResult(Warning, "Skills", "No skills added", Some("Add your technical skills"))]
    else if |ss| >= 10 then [AnalysisResult(Success, "Skills", NatToString(|ss|) + " skills documented", None)]
    else [AnalysisResult(Info, "Skills", "Only " + NatToString(|ss|) + " skills", Some("Consider adding more relevant skills"))]
  }

  function EducationChecks(es: seq<Education>): (r: seq<AnalysisResult>)
    ensures |r| == 1 && r[0].category == "Education"
    ensures r[0].kind == (if es == [] then Warning else Success)
  {
    if es == [] then [AnalysisResult(Warning, "Education", "No education added", Some("Add your educational background"))]
    else [AnalysisResult(Success, "Education", NatToString(|es|) + " education entries", None)]
  }

  function CertificationChecks(cs: seq<Certification>): (r: seq<AnalysisResult>)
    ensures |r| == 1 && r[0].category == "Certifications"
    ensures r[0].kind == (if cs == [] then Info else Success)
  {
    if cs != [] then [AnalysisResult(Success, "Certifications", NatToString(|cs|) + " certifications added", None)]
    else [AnalysisResult(Info, "Certifications", "No certifications", Some("Add relevant certifications to stand out"))]
  }

  /** All the rules, in the order the page lists them. */
  function Analysis(p: Option<Profile>, es: seq<Experience>, ps: seq<Project>, ss: seq<Skill>,
                    eds: seq<Education>, cs: seq<Certification>): (r: seq<AnalysisResult>)
    ensures |r| >= 5
  {
    ProfileChecks(p) + ExperienceChecks(es) + ProjectChecks(ps) + SkillChecks(ss) + EducationChecks(eds)
    + CertificationChecks(cs)
  }

  /** `analyzeCV`: the results pushed one rule at a time, group by group, into one list. */
  method AnalyzeCV(p: Option<Profile>, es: seq<Experience>, ps: seq<Project>, ss: seq<Skill>,
                   eds: seq<Education>, cs: seq<Certification>) returns (results: seq<AnalysisResult>)
    ensures results == Analysis(p, es, ps, ss, eds, cs)
  {
    results := PushProfileChecks([], p);
    assert results == ProfileChecks(p);
    results := PushExperienceChecks(results, es);
    results := PushProjectChecks(results, ps);
    results := PushSkillChecks(results, ss);
    results := PushEducationChecks(results, eds);
    results := PushCertificationChecks(results, cs);
  }

  /** The profile rules, pushed after `results`. */
  method PushProfileChecks(results: seq<AnalysisResult>, p: Option<Profile>) returns (r: seq<AnalysisResult>)
    ensures r == results + ProfileChecks(p)
  {
    r := results;
    ghost var pushed: seq<AnalysisResult> := [];
    if !HasName(p) { r := r + [NameMissing]; }
    pushed := When(!HasName(p), NameMissing);
    assert r == results + pushed;
    if !HasEmail(p) { r := r + [EmailMissing]; }
    AppendAssoc(results, pushed, When(!HasEmail(p), EmailMissing));
    pushed := pushed + When(!HasEmail(p), EmailMissing);
    assert r == results + pushed;
    if !HasPhone(p) { r := r + [PhoneMissing]; }
    AppendAssoc(results, pushed, When(!HasPhone(p), PhoneMissing));
    pushed := pushed + When(!HasPhone(p), PhoneMissing);
    assert r == results + pushed;
    if !HasGithub(p) { r := r + [GithubMissing]; }
    AppendAssoc(results, pushed, When(!HasGithub(p), GithubMissing));
    pushed := pushed + When(!HasGithub(p), GithubMissing);
    assert r == results + pushed;
    if !HasLinkedin(p) { r := r + [LinkedinMissing]; }
    AppendAssoc(results, pushed, When(!HasLinkedin(p), LinkedinMissing));
    pushed := pushed + When(!HasLinkedin(p), LinkedinMissing);
    assert r == results + pushed;
    if HasName(p) && HasEmail(p) { r := r + [ContactComplete]; }
    AppendAssoc(results, pushed, When(HasName(p) && HasEmail(p), ContactComplete));
    pushed := pushed + When(HasName(p) && HasEmail(p), ContactComplete);
    assert r == results + pushed;
  }

  /** The experience rules, pushed after `results`. */
  method PushExperienceChecks(results: seq<AnalysisResult>, es: seq<Experience>) returns (r: seq<AnalysisResult>)
    ensures r == results + ExperienceChecks(es)
  {
    if es == [] {
      r := results + [ExperienceCount(0)];
    } else {
      r := results + [ExperienceCount(|es|)];
      var few := Filter(es, FewTasksEntry);
      if |few| > 0 {
        r := r + [FewTasks];
      }
    }
  }

  /** The project rules, pushed after `results`. */
  method PushProjectChecks(results: seq<AnalysisResult>, ps: seq<Project>) returns (r: seq<AnalysisResult>)
    ensures r == results + ProjectChecks(ps)
  {
    r := results;
    if ps == [] {
      r := r + [NoProjects];
    } else {
      if |ps| >= 2 {
        r := r + [AnalysisResult(Success, "Projects", NatToString(|ps|) + " projects documented", None)];
      }
      var linked := Filter(ps, HasLink);
      if |linked| == 0 {
        r := r + [NoProjectLinks];
      } else {
        r := r + [AnalysisResult(Success, "Projects", NatToString(|linked|) + " projects have links", None)];
      }
    }
  }

  /** The skill rule, pushed after `results`. */
  method PushSkillChecks(results: seq<AnalysisResult>, ss: seq<Skill>) returns (r: seq<AnalysisResult>)
    ensures r == results + SkillChecks(ss)
  {
    if ss == [] {
      r := results + [AnalysisResult(Warning, "Skills", "No skills added", Some("Add your technical skills"))];
    } else if |ss| >= 10 {
      r := results + [AnalysisResult(Success, "Skills", NatToString(|ss|) + " skills documented", None)];
    } else {
      r := results + [AnalysisResult(Info, "Skills", "Only " + NatToString(|ss|) + " skills",
                                     Some("Consider adding more relevant skills"))];
    }
  }

  /** The education rule, pushed after `results`. */
  method PushEducationChecks(results: seq<AnalysisResult>, es: seq<Education>) returns (r: seq<AnalysisResult>)
    ensures r == results + EducationChecks(es)
  {
    if es == [] {
      r := results + [AnalysisResult(Warning, "Education", "No education added", Some("Add your educational background"))];
    } else {
      r := results + [AnalysisResult(Success, "Education", NatToString(|es|) + " education entries", None)];
    }
  }

  /** The certification rule, pushed after `results`. */
  method PushCertificationChecks(results: seq<AnalysisResult>, cs: seq<Certification>) returns (r: seq<AnalysisResult>)
    ensures r == results + CertificationChecks(cs)
  {
    if cs != [] {
      r := results + [AnalysisResult(Success, "Certifications", NatToString(|cs|) + " certifications added", None)];
    } else {
      r := results + [AnalysisResult(Info, "Certifications", "No certifications",
                                     Some("Add relevant certifications to stand out"))];
    }
  }

  // ----- The score -----

  /** Number of results of one kind. */
  function CountKind(results: seq<AnalysisResult>, k: Kind): (n: nat)
    ensures n <= |results|
    decreases |results|
  {
    if results == [] then 0 else (if results[0].kind == k then 1 else 0) + CountKind(results[1..], k)
  }

  lemma {:induction false} CountKindAppend(a: seq<AnalysisResult>, b: seq<AnalysisResult>, k: Kind)
    ensures CountKind(a + b, k) == CountKind(a, k) + CountKind(b, k)
    decreases |a|
  {
    if a != [] {
      assert (a + b)[1..] == a[1..] + b;
      CountKindAppend(a[1..], b, k);
    } else {
      assert a + b == b;
    }
  }

  /** The three counts shown on the page add up to the number of results. */
  lemma {:induction false} KindCountsAddUp(results: seq<AnalysisResult>)
    ensures CountKind(results, Success) + CountKind(results, Warning) + CountKind(results, Info) == |results|
    decreases |results|
  {
    if results != [] {
      KindCountsAddUp(results[1..]);
    }
  }

  /**
   * `Math.round(part / whole * 100)` computed exactly: the percentage rounded to the nearest
   * integer, halves rounded up.
   */
  function RoundedPercent(part: nat, whole: nat): (r: int)
    requires 0 < whole && part <= whole
    ensures 0 <= r <= 100
    ensures (2 * r - 1) * whole <= 200 * part < (2 * r + 1) * whole
    ensures part == 0 ==> r == 0
    ensures part == whole ==> r == 100
  {
    var q := 200 * part + whole;
    var d := 2 * whole;
    var r := q / d;
    RoundingBounds(part, whole, r, q % d);
    r
  }

  /** The arithmetic behind `RoundedPercent`, from `q == r * d + m` with `0 <= m < d`. */
  lemma RoundingBounds(part: nat, whole: nat, r: int, m: int)
    requires 0 < whole && part <= whole
    requires 200 * part + whole == r * (2 * whole) + m && 0 <= m < 2 * whole
    ensures 0 <= r <= 100
    ensures (2 * r - 1) * whole <= 200 * part < (2 * r + 1) * whole
    ensures part == 0 ==> r == 0
    ensures part == whole ==> r == 100
  {
    assert r * (2 * whole) == 2 * (r * whole);
    assert (2 * r - 1) * whole == 2 * (r * whole) - whole;
    assert (2 * r + 1) * whole == 2 * (r * whole) + whole;
    if r < 0 {
      MulLess(r, 0, whole);
    }
    if r > 100 {
      MulLess(100, r, whole);
    }
    if part == 0 && r > 0 {
      MulLess(0, r, whole);
    }
    if part == whole && r < 100 {
      MulLess(r, 100, whole);
    }
  }

  /** A product grows with its first factor: `a < b` gives `a * c + c <= b * c` for positive `c`. */
  lemma MulLess(a: int, b: int, c: int)
    requires a < b && 0 < c
    ensures a * c + c <= b * c
    decreases b - a
  {
    if b - a > 1 {
      MulLess(a, b - 1, c);
    }
    assert b * c == (b - 1) * c + c;
  }

  /** The page's score: the share of successful results, as a rounded percentage. */
  function Score(results: seq<AnalysisResult>): (r: int)
    requires results != []
    ensures 0 <= r <= 100
  {
    RoundedPercent(CountKind(results, Success), |results|)
  }

  /** The analysis always yields results (one Certifications result at least), so the score is defined and lies in 0..100. */
  lemma AnalysisScoreDefined(p: Option<Profile>, es: seq<Experience>, ps: seq<Project>, ss: seq<Skill>,
                             eds: seq<Education>, cs: seq<Certification>)
    ensures var results := Analysis(p, es, ps, ss, eds, cs);
      results != [] && 0 <= Score(results) <= 100
  {
  }

  // ----- Matching a job description -----

  /** The technology keywords looked for in a job description, in the order the page lists them. */
  const TechKeywords: seq<string> :=
    FrontEndKeywords + StyleKeywords + DataKeywords + ToolKeywords + FrameworkKeywords + DesignKeywords + ServerKeywords

  const FrontEndKeywords: seq<string> := ["react", "vue", "angular", "node", "express", "laravel", "php", "python", "java"]
  const StyleKeywords: seq<string> := ["javascript", "typescript", "html", "css", "tailwind", "bootstrap", "sass"]
  const DataKeywords: seq<string> := ["mongodb", "mysql", "postgresql", "redis", "docker", "kubernetes", "aws", "azure"]
  const ToolKeywords: seq<string> := ["git", "github", "gitlab", "ci/cd", "agile", "scrum", "rest", "graphql", "api"]
  const FrameworkKeywords: seq<string> := ["next.js", "nuxt", "nestjs", "django", "flask", "spring", "sql", "nosql"]
  const DesignKeywords: seq<string> := ["figma", "adobe", "photoshop", "illustrator", "xd", "sketch"]
  const ServerKeywords: seq<string> := ["linux", "ubuntu", "nginx", "apache", "jenkins", "terraform"]

  datatype MatchResult = MatchResult(matched: seq<string>, missing: seq<string>)

  /** `list.flatMap(x => x.technologies.map(t => t.toLowerCase()))`. */
  function LowerTechnologies(lists: seq<seq<string>>): (r: seq<string>)
    ensures forall t :: t in r <==> exists i, j :: 0 <= i < |lists| && 0 <= j < |lists[i]| && t == ToLower(lists[i][j])
    decreases |lists|
  {
    if lists == [] then []
    else
      var rest := LowerTechnologies(lists[1..]);
      assert forall i :: 1 <= i < |lists| ==> lists[i] == lists[1..][i - 1];
      var here := Map(lists[0], ToLower);
      assert forall t :: t in here <==> exists j :: 0 <= j < |lists[0]| && t == ToLower(lists[0][j]);
      here + rest
  }

  /**
   * Everything the owner lists, lower-cased: skill names, then project and experience
   * technologies.  (The source removes duplicates with a `Set`; only membership matters below.)
   */
  function UserTechnologies(ss: seq<Skill>, ps: seq<Project>, es: seq<Experience>): seq<string> {
    Map(ss, (s: Skill) => ToLower(s.name))
    + LowerTechnologies(Map(ps, (p: Project) => p.technologies))
    + LowerTechnologies(Map(es, (e: Experience) => e.technologies))
  }

  /** `allUserTech.some(tech => tech.includes(kw) || kw.includes(tech))`, as written. */
  predicate Covered(kw: string, techs: seq<string>) {
    exists t :: t in techs && (Contains(t, kw) || Contains(kw, t))
  }

  /** The keywords of `keywords` found in the lower-cased description, in list order. */
  function FoundKeywords(keywords: seq<string>, description: string): (r: seq<string>)
    ensures forall kw :: kw in r <==> kw in keywords && Contains(ToLower(description), kw)
    ensures IsSubsequence(r, keywords)
  {
    var lower := ToLower(description);
    FilterIsSubsequence(keywords, (kw: string) => Contains(lower, kw));
    Filter(keywords, (kw: string) => Contains(lower, kw))
  }

  /** The two ways of deciding that a technology covers a keyword: as written, and with empty technologies ignored. */
  datatype Matching = AsWritten | EmptyIgnored

  predicate Covers(m: Matching, kw: string, techs: seq<string>) {
    if m == AsWritten then Covered(kw, techs) else CoveredIntended(kw, techs)
  }

  /** Found keywords split into those some technology covers and the rest, both in list order. */
  function Partition(found: seq<string>, techs: seq<string>, m: Matching): (r: MatchResult)
    ensures forall kw :: kw in r.matched <==> kw in found && Covers(m, kw, techs)
    ensures forall kw :: kw in r.missing <==> kw in found && !Covers(m, kw, techs)
    ensures multiset(r.matched) + multiset(r.missing) == multiset(found)
    ensures IsSubsequence(r.matched, found) && IsSubsequence(r.missing, found)
  {
    var covered := (kw: string) => Covers(m, kw, techs);
    var notCovered := (kw: string) => !Covers(m, kw, techs);
    FilterPartition(found, covered, notCovered);
    FilterIsSubsequence(found, covered);
    FilterIsSubsequence(found, notCovered);
    MatchResult(Filter(found, covered), Filter(found, notCovered))
  }

  /**
   * `matchJobDescription`: a blank description leaves the previous result; otherwise the found
   * keywords are split by coverage, `m` saying how coverage is decided.  The page looks for
   * `TechKeywords`; the list is a parameter here so that the properties hold for any list.
   */
  function MatchJobDescription(keywords: seq<string>, m: Matching, previous: Option<MatchResult>, description: string,
                               ss: seq<Skill>, ps: seq<Project>, es: seq<Experience>): (r: Option<MatchResult>)
    ensures AllWhitespace(description) ==> r == previous
    ensures !AllWhitespace(description) ==>
      && r.Some?
      && multiset(r.value.matched) + multiset(r.value.missing) == multiset(FoundKeywords(keywords, description))
      && (forall kw :: kw in r.value.matched <==>
            kw in FoundKeywords(keywords, description) && Covers(m, kw, UserTechnologies(ss, ps, es)))
  {
    if Trim(description) == "" then previous
    else Some(Partition(FoundKeywords(keywords, description), UserTechnologies(ss, ps, es), m))
  }

  /**
   * The page's call, with the intended coverage in which an empty technology covers nothing: a
   * blank description keeps the previous result; otherwise a keyword of `TechKeywords` found in the
   * lower-cased description is matched exactly when some non-empty technology of the user covers it.
   */
  function PageMatch(previous: Option<MatchResult>, description: string,
                     ss: seq<Skill>, ps: seq<Project>, es: seq<Experience>): (r: Option<MatchResult>)
    ensures AllWhitespace(description) ==> r == previous
    ensures !AllWhitespace(description) ==>
      && r.Some?
      && (forall kw :: kw in r.value.matched <==>
            kw in FoundKeywords(TechKeywords, description) && CoveredIntended(kw, UserTechnologies(ss, ps, es)))
      && (forall kw :: kw in r.value.missing <==>
            kw in FoundKeywords(TechKeywords, description) && !CoveredIntended(kw, UserTechnologies(ss, ps, es)))
  {
    MatchJobDescription(TechKeywords, EmptyIgnored, previous, description, ss, ps, es)
  }

  /**
   * The page's call as the program runs it, with `tech.includes(kw) || kw.includes(tech)`: a found
   * keyword is matched exactly when some technology, the empty one included, covers it.
   */
  function PageMatchAsWritten(previous: Option<MatchResult>, description: string,
                              ss: seq<Skill>, ps: seq<Project>, es: seq<Experience>): (r: Option<MatchResult>)
    ensures AllWhitespace(description) ==> r == previous
    ensures !AllWhitespace(description) ==>
      && r.Some?
      && (forall kw :: kw in r.value.matched <==>
            kw in FoundKeywords(TechKeywords, description) && Covered(kw, UserTechnologies(ss, ps, es)))
      && (forall kw :: kw in r.value.missing <==>
            kw in FoundKeywords(TechKeywords, description) && !Covered(kw, UserTechnologies(ss, ps, es)))
  {
    MatchJobDescription(TechKeywords, AsWritten, previous, description, ss, ps, es)
  }

  /** On the page as written, one empty technology leaves no keyword missing, whatever the description. */
  lemma PageMatchAsWrittenMissesNothing(previous: Option<MatchResult>, description: string,
                                        ss: seq<Skill>, ps: seq<Project>, es: seq<Experience>)
    requires !AllWhitespace(description) && "" in UserTechnologies(ss, ps, es)
    ensures PageMatchAsWritten(previous, description, ss, ps, es).value.missing == []
  {
    var missing := PageMatchAsWritten(previous, description, ss, ps, es).value.missing;
    forall kw ensures kw !in missing {
      EmptyTechnologyCoversAll(kw, UserTechnologies(ss, ps, es));
    }
    if missing != [] {
      HeadIsMember(missing);
      assert false;
    }
  }

  /** A non-empty sequence holds its first element. */
  lemma HeadIsMember(s: seq<string>)
    requires s != []
    ensures s[0] in s
  {
  }

  /** A keyword is never both matched and missing. */
  lemma MatchedMissingDisjoint(keywords: seq<string>, m: Matching, previous: Option<MatchResult>, description: string,
                               ss: seq<Skill>, ps: seq<Project>, es: seq<Experience>)
    requires !AllWhitespace(description)
    ensures var r := MatchJobDescription(keywords, m, previous, description, ss, ps, es).value;
      forall kw :: !(kw in r.matched && kw in r.missing)
  {
  }

  /** As written, an empty technology (`kw.includes('')` holds for every keyword) covers every keyword. */
  lemma EmptyTechnologyCoversAll(kw: string, techs: seq<string>)
    requires "" in techs
    ensures Covered(kw, techs)
  {
    ContainsEmpty(kw);
  }

  /** So one empty technology reports every found keyword as matched and none as missing. */
  lemma EmptyTechnologyMatchesEverything(keywords: seq<string>, description: string, ss: seq<Skill>, ps: seq<Project>, es: seq<Experience>)
    requires !AllWhitespace(description)
    requires "" in UserTechnologies(ss, ps, es)
    ensures var r := MatchJobDescription(keywords, AsWritten, None, description, ss, ps, es).value;
      r.matched == FoundKeywords(keywords, description) && r.missing == []
  {
    var found := FoundKeywords(keywords, description);
    var techs := UserTechnologies(ss, ps, es);
    forall kw | kw in found ensures Covers(AsWritten, kw, techs) {
      EmptyTechnologyCoversAll(kw, techs);
    }
    FilterKeepsAll(found, (kw: string) => Covers(AsWritten, kw, techs));
  }

  /** The matching the page evidently intends: an empty technology covers nothing. */
  predicate CoveredIntended(kw: string, techs: seq<string>) {
    exists t :: t in techs && t != "" && (Contains(t, kw) || Contains(kw, t))
  }

  /** With the intended matching, adding empty technologies changes no result. */
  lemma IntendedIgnoresEmptyTechnology(kw: string, techs: seq<string>)
    ensures CoveredIntended(kw, techs + [""]) <==> CoveredIntended(kw, techs)
  {
    if CoveredIntended(kw, techs + [""]) {
      var t :| t in techs + [""] && t != "" && (Contains(t, kw) || Contains(kw, t));
      assert t in techs;
    }
  }

  /** With no non-empty technology, the intended matching matches nothing, whereas the written one matches all. */
  lemma IntendedWithOnlyEmptyTechnology(kw: string)
    ensures !CoveredIntended(kw, [""])
    ensures Covered(kw, [""])
  {
    EmptyTechnologyCoversAll(kw, [""]);
  }

  /** With the intended coverage, an empty technology changes neither the matched nor the missing keywords. */
  lemma IntendedPartitionIgnoresEmpty(found: seq<string>, techs: seq<string>)
    ensures Partition(found, techs + [""], EmptyIgnored) == Partition(found, techs, EmptyIgnored)
  {
    forall kw ensures Covers(EmptyIgnored, kw, techs + [""]) == Covers(EmptyIgnored, kw, techs) {
      IntendedIgnoresEmptyTechnology(kw, techs);
    }
    FilterAgrees(found, (kw: string) => Covers(EmptyIgnored, kw, techs + [""]), (kw: string) => Covers(EmptyIgnored, kw, techs));
    FilterAgrees(found, (kw: string) => !Covers(EmptyIgnored, kw, techs + [""]), (kw: string) => !Covers(EmptyIgnored, kw, techs));
  }
}
