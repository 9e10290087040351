/**
 * Form logic shared by the editor pages: dropping blank list entries, the comma-separated
 * technologies field, and the one expanded entry of a list.
 */
module FormFields {
  import opened Options
  import opened Seqs
  import opened Text

  /** `s.trim()` is truthy: some character is not white space. */
  predicate HasText(s: string) {
    !AllWhitespace(s)
  }

  /** `HasText` is exactly the truthiness of `s.trim()`, the empty string being falsy. */
  lemma HasTextIsTrimTruthy(s: string)
    ensures HasText(s) <==> Trim(s) != ""
  {
  }

  /** `items.filter(t => t.trim())`: the entries that are not blank, in their order. */
  function NonBlank(items: seq<string>): (r: seq<string>)
    ensures forall x :: x in r <==> x in items && !AllWhitespace(x)
    ensures IsSubsequence(r, items)
    ensures |r| <= |items|
  {
    FilterIsSubsequence(items, HasText);
    Filter(items, HasText)
  }

  /** A list without blank entries is kept whole, so dropping blanks twice is the same as once. */
  lemma NonBlankKeepsFilled(items: seq<string>)
    requires forall x :: x in items ==> !AllWhitespace(x)
    ensures NonBlank(items) == items
  {
    FilterKeepsAll(items, HasText);
  }

  lemma NonBlankIdempotent(items: seq<string>)
    ensures NonBlank(NonBlank(items)) == NonBlank(items)
  {
    NonBlankKeepsFilled(NonBlank(items));
  }

  /**
   * `value.split(',').map(t => t.trim())`: one trimmed piece per comma-separated part, so one
   * more piece than there are commas; empty input gives one empty piece.
   */
  function ParseTechnologies(input: string): (r: seq<string>)
    ensures |r| == Occurrences(input, ',') + 1
    ensures forall k :: 0 <= k < |r| ==> IsTrimmed(r[k]) && ',' !in r[k]
  {
    var pieces := Split(input, ',');
    forall k | 0 <= k < |pieces| ensures ',' !in Trim(pieces[k]) {
      TrimKeeps(pieces[k]);
    }
    Map(pieces, Trim)
  }

  /** `technologies.join(', ')`: what the field shows. */
  function TechnologiesText(technologies: seq<string>): string {
    Join(technologies, ", ")
  }

  /**
   * Parsing what the field shows gives the list back, for a non-empty list of trimmed names
   * without commas.
   */
  lemma {:induction false} ParseShown(technologies: seq<string>)
    requires technologies != []
    requires forall k :: 0 <= k < |technologies| ==> IsTrimmed(technologies[k]) && ',' !in technologies[k]
    ensures ParseTechnologies(TechnologiesText(technologies)) == technologies
    decreases |technologies|
  {
    var first := technologies[0];
    if |technologies| == 1 {
      ParseSingle(first);
      assert technologies == [first];
    } else {
      var tail := technologies[1..];
      var shownTail := TechnologiesText(tail);
      ShownCons(technologies);
      calc {
        ParseTechnologies(TechnologiesText(technologies));
        ParseTechnologies(first + [','] + (" " + shownTail));
        { ParseAfterPiece(first, " " + shownTail); }
        [first] + ParseTechnologies(" " + shownTail);
        { ParseLeadingSpace(shownTail); }
        [first] + ParseTechnologies(shownTail);
        { ParseShown(tail); }
        [first] + tail;
      }
    }
  }

  /** One trimmed name without commas is shown as itself and parsed back. */
  lemma ParseSingle(name: string)
    requires IsTrimmed(name) && ',' !in name
    ensures ParseTechnologies(TechnologiesText([name])) == [name]
  {
    SplitWhole(name, ',');
    TrimTrimmed(name);
  }

  /** Two or more names are shown as the first, a comma, a space and the rest. */
  lemma ShownCons(technologies: seq<string>)
    requires |technologies| >= 2
    ensures TechnologiesText(technologies) == technologies[0] + [','] + (" " + TechnologiesText(technologies[1..]))
  {
  }

  /** A trimmed piece without commas, then a comma: the piece is parsed first, then the rest. */
  lemma ParseAfterPiece(piece: string, rest: string)
    requires IsTrimmed(piece) && ',' !in piece
    ensures ParseTechnologies(piece + [','] + rest) == [piece] + ParseTechnologies(rest)
  {
    SplitAfterPiece(piece, ',', rest);
    TrimTrimmed(piece);
  }

  /** A leading space joins the first piece of the split; the other pieces are unchanged. */
  lemma SplitLeadingSpace(input: string)
    ensures Split(" " + input, ',') == [" " + Split(input, ',')[0]] + Split(input, ',')[1..]
  {
    assert (" " + input)[1..] == input;
  }

  /** Trimming piece by piece gives the same list when only the first pieces differ, and trim alike. */
  lemma TrimSameHead(x: string, y: string, rest: seq<string>)
    requires Trim(x) == Trim(y)
    ensures Map([x] + rest, Trim) == Map([y] + rest, Trim)
  {
    var a, b := Map([x] + rest, Trim), Map([y] + rest, Trim);
    forall k | 0 <= k < |a| ensures a[k] == b[k] {
      if k > 0 {
        assert ([x] + rest)[k] == ([y] + rest)[k];
      }
    }
  }

  /** A leading space does not change the parsed list. */
  lemma ParseLeadingSpace(input: string)
    ensures ParseTechnologies(" " + input) == ParseTechnologies(input)
  {
    var pieces := Split(input, ',');
    SplitLeadingSpace(input);
    TrimLeadingSpace(pieces[0]);
    TrimSameHead(" " + pieces[0], pieces[0], pieces[1..]);
    assert [pieces[0]] + pieces[1..] == pieces;
  }

  /** Showing a parsed value and parsing it again gives the same list: the field is stable under re-display. */
  lemma ReparseStable(input: string)
    ensures ParseTechnologies(TechnologiesText(ParseTechnologies(input))) == ParseTechnologies(input)
  {
    ParseShown(ParseTechnologies(input));
  }

  /** `list[0]?.id || null`: the entry shown expanded when the page opens. */
  function InitialExpanded(ids: seq<string>): (r: Option<string>)
    ensures r.Some? <==> ids != [] && ids[0] != ""
    ensures r.Some? ==> r.value == ids[0]
  {
    if ids != [] && ids[0] != "" then Some(ids[0]) else None
  }

  /** `setExpanded(expanded === id ? null : id)`: clicking an entry opens it, or closes it when it was open. */
  function ToggleExpanded(expanded: Option<string>, id: string): (r: Option<string>)
    ensures r == Some(id) <==> expanded != Some(id)
    ensures r.None? <==> expanded == Some(id)
  {
    if expanded == Some(id) then None else Some(id)
  }
}
