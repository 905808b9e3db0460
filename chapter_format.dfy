/**
 * The names, lines and fragments the chapter dock builds: the source suffix
 * on a chapter name, the default "<name> <count>" chapter name, the text
 * sidecar lines, the XML sidecar fragments and the sidecar file paths.
 */
module ChapterFormat {
  import opened Strings

  const TextFileSuffix: string := "_chapters.txt"
  const XmlFileSuffix: string := "_chapters.xml"

  /** `<dir>/<base><suffix>`, next to the recording. */
  function ExportFilePath(directory: string, baseName: string, suffix: string): (r: string)
    ensures |r| == |directory| + 1 + |baseName| + |suffix|
    ensures r[..|directory|] == directory && r[|directory|] == '/'
    ensures r[|directory| + 1..|r| - |suffix|] == baseName
    ensures r[|r| - |suffix|..] == suffix
  {
    directory + "/" + baseName + suffix
  }

  /** The text and XML sidecars of one recording never share a path. */
  lemma ExportPathsDistinct(directory: string, baseName: string)
    ensures ExportFilePath(directory, baseName, TextFileSuffix) != ExportFilePath(directory, baseName, XmlFileSuffix)
  {
    var t := ExportFilePath(directory, baseName, TextFileSuffix);
    var x := ExportFilePath(directory, baseName, XmlFileSuffix);
    assert t[|t| - 1] == 't' && x[|x| - 1] == 'l';
  }

  /** First line of a freshly created text sidecar. */
  function TextHeader(baseName: string): (r: string)
    ensures |r| == 21 + |baseName| && r[20..|r| - 1] == baseName
    ensures r[..20] == "Chapter Markers for " && r[|r| - 1] == '\n'
  {
    "Chapter Markers for " + baseName + "\n"
  }

  /** Stub a freshly created XML sidecar starts with; later fragments are appended after its closing tag. */
  function XmlHeader(baseName: string): (r: string)
    ensures |r| == 53 + |baseName|
    ensures r[..17] == "<ChapterMarkers>\n"
    ensures r[|r| - 18..] == "</ChapterMarkers>\n"
    ensures r[26..|r| - 27] == baseName
  {
    "<ChapterMarkers>\n" + "  <Title>" + baseName + "</Title>\n" + "</ChapterMarkers>\n"
  }

  function SourceSuffix(source: string): string
  {
    " (" + source + ")"
  }

  /**
   * The full chapter name: the source suffix is added when suffixing is on,
   * unless the name already contains it.
   */
  function FullChapterName(name: string, source: string, addSource: bool): (r: string)
    ensures !addSource ==> r == name
    ensures addSource ==> Contains(r, SourceSuffix(source))
    ensures addSource && Contains(name, SourceSuffix(source)) ==> r == name
    ensures addSource && !Contains(name, SourceSuffix(source)) ==> r == name + SourceSuffix(source)
  {
    if addSource && !Contains(name, SourceSuffix(source)) then
      ContainsAppended(name, SourceSuffix(source));
      name + SourceSuffix(source)
    else name
  }

  /** Applying the suffix step to its own output changes nothing. */
  lemma FullChapterNameIdempotent(name: string, source: string, addSource: bool)
    ensures FullChapterName(FullChapterName(name, source, addSource), source, addSource)
            == FullChapterName(name, source, addSource)
  {
  }

  /**
   * The name written to the text sidecar: the suffix is added when suffixing
   * is on, unless the name contains the bare source text (not the suffix).
   */
  function TextEntryName(name: string, source: string, addSource: bool): (r: string)
    ensures !addSource ==> r == name
    ensures addSource ==> Contains(r, source)
    ensures addSource && Contains(name, source) ==> r == name
    ensures addSource && !Contains(name, source) ==> r == name + SourceSuffix(source)
  {
    if addSource && !Contains(name, source) then
      ContainsAt(name + SourceSuffix(source), source, |name| + 2);
      name + SourceSuffix(source)
    else name
  }

  lemma TextEntryNameIdempotent(name: string, source: string, addSource: bool)
    ensures TextEntryName(TextEntryName(name, source, addSource), source, addSource)
            == TextEntryName(name, source, addSource)
  {
  }

  /**
   * The two checks differ: a name that mentions its source without the
   * parenthesised suffix gets the suffix in the video chapter and the
   * history, but not in the text sidecar.
   */
  lemma TextEntryMayOmitSuffix()
    ensures FullChapterName("Manual cut", "Manual", true) == "Manual cut (Manual)"
    ensures TextEntryName("Manual cut", "Manual", true) == "Manual cut"
  {
    var name, suffix := "Manual cut", SourceSuffix("Manual");
    assert name[..6] == "Manual";
    assert !Contains(name, suffix) by {
      assert |suffix| == 9 && |name| == 10;
      assert name[..9] != suffix by { assert name[0] != suffix[0]; }
      assert name[1..][..9] != suffix by { assert name[1] != suffix[0]; }
      assert !Contains(name[2..], suffix);
    }
  }

  /** A text sidecar line: `<timestamp> - <name>` and a newline. */
  function ChapterTextLine(timestamp: string, name: string): (r: string)
    ensures |r| == |timestamp| + |name| + 4
    ensures r[..|timestamp|] == timestamp && r[|timestamp|..|timestamp| + 3] == " - "
    ensures r[|timestamp| + 3..|r| - 1] == name && r[|r| - 1] == '\n'
  {
    timestamp + " - " + name + "\n"
  }

  /** The XML fragment for a chapter: name, timestamp and source, in that order. */
  function ChapterXmlEntry(name: string, timestamp: string, source: string): (r: string)
    ensures |r| == 93 + |name| + |timestamp| + |source|
    ensures r[..22] == "  <Chapter>\n    <Name>" && r[22..22 + |name|] == name
    ensures r[|r| - 13..] == "  </Chapter>\n"
    ensures r[|r| - 35 - |source|..|r| - 23 - |source|] == "    <Source>" && r[|r| - 23 - |source|..|r| - 23] == source
  {
    "  <Chapter>\n"
    + "    <Name>" + name + "</Name>\n"
    + "    <Timestamp>" + timestamp + "</Timestamp>\n"
    + "    <Source>" + source + "</Source>\n"
    + "  </Chapter>\n"
  }

  /** `(<annotation label>) <text> (<source>)`, the annotation as it appears in the text sidecar. */
  function AnnotationEntry(annotationLabel: string, text: string, source: string): (r: string)
    ensures |r| == |annotationLabel| + |text| + |source| + 6
    ensures r[0] == '(' && r[1..1 + |annotationLabel|] == annotationLabel
    ensures r[|annotationLabel| + 3..|r| - |source| - 3] == text
    ensures r[|r| - |source| - 3..] == SourceSuffix(source)
  {
    "(" + annotationLabel + ") " + text + " (" + source + ")"
  }

  /** The XML fragment for an annotation: timestamp, text and source. */
  function AnnotationXmlEntry(timestamp: string, text: string, source: string): (r: string)
    ensures |r| == 89 + |timestamp| + |text| + |source|
    ensures r[..13] == "<Annotation>\n" && r[|r| - 14..] == "</Annotation>\n"
    ensures r[13..26] == "  <Timestamp>" && r[26..26 + |timestamp|] == timestamp
  {
    "<Annotation>\n"
    + "  <Timestamp>" + timestamp + "</Timestamp>\n"
    + "  <Text>" + text + "</Text>\n"
    + "  <Source>" + source + "</Source>\n"
    + "</Annotation>\n"
  }

  /** `<default name> <count>`, the name an unnamed marker gets from the counter. */
  function DefaultChapterName(defaultName: string, count: nat): string
  {
    defaultName + " " + NatToString(count)
  }

  /** Different counter values give different default names, so counting markers never repeats a name. */
  lemma DefaultChapterNameInjective(defaultName: string, m: nat, n: nat)
    requires DefaultChapterName(defaultName, m) == DefaultChapterName(defaultName, n)
    ensures m == n
  {
    var p := defaultName + " ";
    var a, b := DefaultChapterName(defaultName, m), DefaultChapterName(defaultName, n);
    assert a[|p|..] == NatToString(m);
    assert b[|p|..] == NatToString(n);
    NatToStringInjective(m, n);
  }
}
