/** The names given to downloaded files: `CV_` and the owner's name with each white-space run made one `_`. */
module FileNames {
  import opened Text
  import opened Entities

  /** `name.replace(/\s+/g, '_')`: no white space is left. */
  function SafeName(name: string): (r: string)
    ensures NoWhitespace(r)
    ensures |r| <= |name|
  {
    ReplaceWhitespaceRuns(name, '_')
  }

  /** A name without white space is used as it is, and making a safe name safe again changes nothing. */
  lemma SafeNameKeepsClean(name: string)
    ensures NoWhitespace(name) ==> SafeName(name) == name
    ensures SafeName(SafeName(name)) == SafeName(name)
  {
    if NoWhitespace(name) {
      ReplaceNoWhitespace(name, '_');
    }
    ReplaceIdempotent(name, '_');
  }

  /** `iso.split('T')[0]`: the date part of an ISO time stamp. */
  function DatePart(iso: string): (r: string)
    ensures 'T' !in r
    ensures StartsWith(iso, r)
  {
    SplitFirstIsPrefix(iso, 'T');
    Split(iso, 'T')[0]
  }

  /** Of a time stamp `date + "T" + time`, the date part is `date`. */
  lemma DatePartOfStamp(date: string, time: string)
    requires 'T' !in date
    ensures DatePart(date + "T" + time) == date
  {
    SplitAfterPiece(date, 'T', time);
  }

  /** `getFileName(ext)` of the export menu: `CV_<name>_<date>.<ext>`. */
  function ExportFileName(name: string, iso: string, ext: string): (r: string)
    ensures StartsWith(r, "CV_") && EndsWith(r, "." + ext)
  {
    var r := "CV_" + SafeName(name) + "_" + DatePart(iso) + "." + ext;
    assert r[|r| - |ext| - 1..] == "." + ext;
    r
  }

  /** For a stamp `date + "T" + time` and a name without white space, the export file name is `CV_<name>_<date>.<ext>`. */
  lemma ExportFileNameOfStamp(name: string, date: string, time: string, ext: string)
    requires NoWhitespace(name) && 'T' !in date
    ensures ExportFileName(name, date + "T" + time, ext) == "CV_" + name + "_" + date + "." + ext
  {
    SafeNameKeepsClean(name);
    DatePartOfStamp(date, time);
  }

  /** The JSON backup of the share page: `CV_<name>_backup.json`, with no white space anywhere. */
  function BackupFileName(name: string): (r: string)
    ensures NoWhitespace(r)
    ensures StartsWith(r, "CV_") && EndsWith(r, "_backup.json")
  {
    var r := "CV_" + SafeName(name) + "_backup.json";
    assert r[|r| - 12..] == "_backup.json";
    r
  }

  /** The PDF of the preview page: `CV_<name>_<template>.pdf`, with no white space anywhere. */
  function PreviewPdfName(name: string, t: Template): (r: string)
    ensures NoWhitespace(r)
    ensures StartsWith(r, "CV_") && EndsWith(r, "_" + TemplateName(t) + ".pdf")
  {
    var tail := "_" + TemplateName(t) + ".pdf";
    TailNoWhitespace(t);
    NoWhitespaceAppend("CV_" + SafeName(name), tail);
    var r := "CV_" + SafeName(name) + tail;
    assert r[|r| - |tail|..] == tail;
    r
  }

  lemma TailNoWhitespace(t: Template)
    ensures NoWhitespace("_" + TemplateName(t) + ".pdf")
  {
    var name := TemplateName(t);
    match t
    case Classic => VisibleAscii("classic");
    case Modern => VisibleAscii("modern");
    case Minimal => VisibleAscii("minimal");
    VisibleAscii("_");
    VisibleAscii(".pdf");
    NoWhitespaceAppend("_", name);
    NoWhitespaceAppend("_" + name, ".pdf");
  }

  /** The PDF of the share page: `CV_<name>.pdf`, with no white space anywhere. */
  function SharePdfName(name: string): (r: string)
    ensures NoWhitespace(r)
    ensures StartsWith(r, "CV_") && EndsWith(r, ".pdf")
  {
    var r := "CV_" + SafeName(name) + ".pdf";
    assert r[|r| - 4..] == ".pdf";
    r
  }
}
