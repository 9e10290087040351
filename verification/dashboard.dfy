/**
 * The dashboard's derived texts: how long ago an activity happened, the icon of an activity,
 * the captions of the statistics cards, the greeting's first name and the short list of CVs.
 */
module Dashboard {
  import opened Options
  import opened Text
  import opened Entities
  import opened DbQueries

  // ----- Relative time -----

  const HourMs := 3_600_000
  const DayMs := 86_400_000

  /** How `formatTime` classifies the time elapsed since an activity. */
  datatype Elapsed = DaysAgo(days: nat) | HoursAgo(hours: nat) | JustNow

  /**
   * `Math.floor(diff / 3600000)` hours, then `Math.floor(hours / 24)` days: whole days when there
   * is at least one, else whole hours when there is at least one, else "just now" (a timestamp in
   * the future included).  The count shown is the number of whole days or hours elapsed.
   */
  function Elapse(diff: int): (r: Elapsed)
    ensures r.DaysAgo? <==> diff >= DayMs
    ensures r.DaysAgo? ==> 1 <= r.days && r.days * DayMs <= diff < (r.days + 1) * DayMs
    ensures r.HoursAgo? <==> HourMs <= diff < DayMs
    ensures r.HoursAgo? ==> 1 <= r.hours < 24 && r.hours * HourMs <= diff < (r.hours + 1) * HourMs
    ensures r.JustNow? <==> diff < HourMs
  {
    var hours := diff / HourMs;
    var days := hours / 24;
    assert hours * HourMs <= diff < (hours + 1) * HourMs;
    assert days * 24 <= hours < (days + 1) * 24;
    if days > 0 then DaysAgo(days)
    else if hours > 0 then HoursAgo(hours)
    else JustNow
  }

  /** An older timestamp never shows a shorter time: days beat hours beat "just now", and counts grow. */
  lemma ElapseMonotone(d1: int, d2: int)
    requires d1 <= d2
    ensures Elapse(d1).DaysAgo? ==> Elapse(d2).DaysAgo? && Elapse(d1).days <= Elapse(d2).days
    ensures Elapse(d1).HoursAgo? ==> Elapse(d2).DaysAgo? || (Elapse(d2).HoursAgo? && Elapse(d1).hours <= Elapse(d2).hours)
    ensures Elapse(d2).JustNow? ==> Elapse(d1).JustNow?
  {
  }

  /** The text for a classification: `N day(s) ago`, `N hour(s) ago` or `Just now`, with `s` only above one. */
  function ElapsedText(e: Elapsed): string {
    match e
    case DaysAgo(n) => NatToString(n) + " day" + (if n > 1 then "s" else "") + " ago"
    case HoursAgo(n) => NatToString(n) + " hour" + (if n > 1 then "s" else "") + " ago"
    case JustNow => "Just now"
  }

  /** `formatTime(date)`, `now` being the clock's reading; both are milliseconds since the epoch. */
  function FormatTime(now: int, timestamp: int): string {
    ElapsedText(Elapse(now - timestamp))
  }

  /** A numeral: a non-empty run of decimal digits. */
  predicate IsNumeral(x: string) {
    x != [] && forall i :: 0 <= i < |x| ==> '0' <= x[i] <= '9'
  }

  /** A numeral followed by `text` ends with a suffix of `text` exactly when `text` does. */
  lemma NumeralThen(x: string, text: string, suffix: string)
    requires IsNumeral(x)
    requires |suffix| <= |text| + 2
    requires |suffix| > |text| ==> !('0' <= suffix[|suffix| - |text| - 1] <= '9')
    ensures EndsWith(x + text, suffix) <==> EndsWith(text, suffix)
  {
    var r := x + text;
    if |suffix| <= |text| {
      assert r[|r| - |suffix|..] == text[|text| - |suffix|..];
    } else if |suffix| <= |r| {
      assert r[|r| - |suffix|..][|suffix| - |text| - 1] == x[|x| - 1];
    }
  }

  /** The texts for whole hours: singular for one hour, plural above, never a text of days. */
  lemma HoursText(x: string, plural: bool)
    requires IsNumeral(x)
    ensures var r := x + " hour" + (if plural then "s" else "") + " ago";
      && r != "Just now"
      && (EndsWith(r, " hour ago") <==> !plural) && (EndsWith(r, " hours ago") <==> plural)
      && !EndsWith(r, " day ago") && !EndsWith(r, " days ago")
  {
    var text := if plural then " hours ago" else " hour ago";
    assert x + " hour" + (if plural then "s" else "") + " ago" == x + text;
    assert (x + text)[0] == x[0];
    NumeralThen(x, text, " hour ago");
    NumeralThen(x, text, " hours ago");
    NumeralThen(x, text, " day ago");
    NumeralThen(x, text, " days ago");
    if plural {
      assert " hours ago"[1..] != " hour ago" && " hours ago"[2..] != " day ago" && " hours ago"[1..] != " days ago";
    } else {
      assert " hour ago"[1..] != " day ago" && " hour ago" != " days ago";
    }
  }

  /** The texts for whole days: singular for one day, plural above, never a text of hours. */
  lemma DaysText(x: string, plural: bool)
    requires IsNumeral(x)
    ensures var r := x + " day" + (if plural then "s" else "") + " ago";
      && r != "Just now"
      && (EndsWith(r, " day ago") <==> !plural) && (EndsWith(r, " days ago") <==> plural)
      && !EndsWith(r, " hour ago") && !EndsWith(r, " hours ago")
  {
    var text := if plural then " days ago" else " day ago";
    assert x + " day" + (if plural then "s" else "") + " ago" == x + text;
    assert (x + text)[0] == x[0];
    NumeralThen(x, text, " day ago");
    NumeralThen(x, text, " days ago");
    NumeralThen(x, text, " hour ago");
    NumeralThen(x, text, " hours ago");
    if plural {
      assert " days ago"[1..] != " day ago" && " days ago" != " hour ago";
    } else {
      assert " day ago" != " hour ago"[1..];
    }
  }

  /** The five texts `formatTime` can produce, each exactly on its own range of elapsed time. */
  lemma FormatTimeRanges(now: int, timestamp: int)
    ensures var r, diff := FormatTime(now, timestamp), now - timestamp;
      && (r == "Just now" <==> diff < HourMs)
      && (EndsWith(r, " hour ago") <==> HourMs <= diff < 2 * HourMs)
      && (EndsWith(r, " hours ago") <==> 2 * HourMs <= diff < DayMs)
      && (EndsWith(r, " day ago") <==> DayMs <= diff < 2 * DayMs)
      && (EndsWith(r, " days ago") <==> diff >= 2 * DayMs)
  {
    var e := Elapse(now - timestamp);
    match e
    case JustNow =>
    case HoursAgo(n) => HoursText(NatToString(n), n > 1);
    case DaysAgo(n) => DaysText(NatToString(n), n > 1);
  }

  // ----- Activity icons -----

  /** The icons of the recent-activity list. */
  datatype Icon = Briefcase | FolderKanban | Wrench | FileText | Download

  /** `getActivityIcon(entityType)`: four entity types have their own icon; any other gets the download icon. */
  function ActivityIcon(entityType: string): (r: Icon)
    ensures r == Briefcase <==> entityType == "experience"
    ensures r == FolderKanban <==> entityType == "project"
    ensures r == Wrench <==> entityType == "skill"
    ensures r == FileText <==> entityType == "cvVariant"
    ensures r == Download <==> entityType !in {"experience", "project", "skill", "cvVariant"}
  {
    match entityType
    case "experience" => Briefcase
    case "project" => FolderKanban
    case "skill" => Wrench
    case "cvVariant" => FileText
    case _ => Download
  }

  /**
   * The download icon never marks an export: exports are logged under `cvVariant`.  It marks the
   * entity types the database logs that have no icon of their own.
   */
  lemma DownloadMarksOtherTypes()
    ensures ActivityIcon("cvVariant") != Download
    ensures forall t :: t in ["profile", "education", "certification", "settings", "system"] ==> ActivityIcon(t) == Download
  {
  }

  // ----- The statistics cards -----

  /** The completion card's caption. */
  function CompletionCaption(completion: int): (r: string)
    ensures r == "Great job!" <==> completion >= 80
    ensures r == "Keep adding details" <==> completion < 80
  {
    if completion >= 80 then "Great job!" else "Keep adding details"
  }

  /**
   * Without any experience the profile can reach 80% only with every other item present, so the
   * dashboard praises it exactly then.
   */
  lemma PraiseWithoutExperience(p: Profile, projects: nat, skills: nat, education: nat)
    ensures CompletionCaption(Completion(Some(p), 0, projects, skills, education)) == "Great job!"
      <==> Truthy(p.name) && Truthy(p.email) && Truthy(p.phone) && Truthy(p.github) && Truthy(p.linkedin)
           && projects > 0 && skills > 0 && education > 0
  {
    ChecklistEarned(Some(p), 0, projects, skills, education);
  }

  /** `${count} ${noun}${count !== 1 ? 's' : ''}`: the count, a space, the noun, and `s` unless the count is one. */
  function CountCaption(count: nat, noun: string): (r: string)
    ensures StartsWith(r, NatToString(count) + " " + noun)
    ensures noun != "" && noun[|noun| - 1] != 's' ==> (EndsWith(r, "s") <==> count != 1)
  {
    var head := NatToString(count) + " " + noun;
    var r := head + (if count != 1 then "s" else "");
    assert r[..|head|] == head;
    assert r[|r| - 1..] == [r[|r| - 1]];
    assert count == 1 ==> r[|r| - 1] == head[|head| - 1];
    r
  }

  /** The two count cards of the dashboard. */
  lemma CountCaptions(count: nat)
    ensures EndsWith(CountCaption(count, "position"), "s") <==> count != 1
    ensures EndsWith(CountCaption(count, "project"), "s") <==> count != 1
  {
  }

  // ----- Greeting and the short list of CVs -----

  /** `profile.name.split(' ')[0]`: the name up to its first space. */
  function FirstName(name: string): (r: string)
    ensures StartsWith(name, r) && ' ' !in r
    ensures |r| < |name| ==> name[|r|] == ' '
  {
    SplitFirstIsPrefix(name, ' ');
    var r := Split(name, ' ')[0];
    FirstPieceEnds(name, ' ');
    r
  }

  /** The first piece of a split is followed by the separator, or is all of `s`. */
  lemma {:induction false} FirstPieceEnds(s: string, sep: char)
    ensures var first := Split(s, sep)[0];
      |first| <= |s| && (|first| < |s| ==> s[|first|] == sep)
    decreases |s|
  {
    if s != [] && s[0] != sep {
      FirstPieceEnds(s[1..], sep);
    }
  }

  /** A first name followed by a space and anything else is greeted by that first name. */
  lemma GreetsFirstName(first: string, rest: string)
    requires ' ' !in first
    ensures FirstName(first + " " + rest) == first
  {
    SplitAfterPiece(first, ' ', rest);
  }

  /** `variants?.slice(0, 3)`: the first three variants, or all of them when there are fewer. */
  function ShownVariants(variants: seq<CVVariant>): (r: seq<CVVariant>)
    ensures |r| == if |variants| < 3 then |variants| else 3
    ensures forall i :: 0 <= i < |r| ==> r[i] == variants[i]
  {
    if |variants| < 3 then variants else variants[..3]
  }

  /** The "No CVs yet" prompt is shown exactly when the short list is empty. */
  lemma EmptyPromptWhenNoVariants(variants: seq<CVVariant>)
    ensures ShownVariants(variants) == [] <==> variants == []
  {
  }
}
