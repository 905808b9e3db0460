/**
 * The chapter-marker dock's bookkeeping: settings, the per-recording session
 * state (counter, first-marker flag, history), the sidecar files, the preset
 * chapters with their hotkeys, and the operations that change them.
 *
 * The host is abstracted as inputs (`Host`), the sidecar files as a map from
 * path to the chunks written to it, the WebSocket events and the calls made
 * into the host as logs.
 */
module MarkerDock {
  import opened Wrappers
  import opened Strings
  import opened Lists
  import opened ChapterFormat

  /** An `obs_hotkey_id` the host handed out on registration. */
  type HotkeyId = nat

  /** The dock's settings flags and default chapter name, as loaded from the configuration. */
  datatype Settings = Settings(
    defaultChapterName: string,
    useIncrementalChapterNames: bool,
    exportChaptersToFileEnabled: bool,
    exportChaptersToTextEnabled: bool,
    exportChaptersToXMLEnabled: bool,
    insertChapterMarkersInVideoEnabled: bool,
    addChapterSourceEnabled: bool,
    chapterOnSceneChangeEnabled: bool,
    showPreviousChaptersEnabled: bool)
  {
    /** Some way of exporting chapters is switched on. */
    predicate HasExportMethod()
    {
      exportChaptersToFileEnabled || insertChapterMarkersInVideoEnabled
    }
  }

  /** The localised strings the logic uses as chapter names, sources and response texts. */
  datatype Labels = Labels(
    start: string,
    end: string,
    recording: string,
    sourceManual: string,
    hotkey: string,
    presetHotkey: string,
    changeScene: string,
    webSocket: string,
    annotation: string,
    recordingNotActive: string,
    errorGettingChapterName: string)

  /** Directory and complete base name of the active recording's output file. */
  datatype OutputPath = OutputPath(directory: string, baseName: string)

  /** What the host reports at the moment an operation runs. */
  datatype Host = Host(
    recordingActive: bool,
    timestamp: string,                  // current recording time, already formatted
    recordingPath: Option<OutputPath>,  // None: no output, no output settings or an empty path
    writable: set<string>,              // the paths a QFile can be opened on
    addChapterResult: Option<bool>,     // None: the host has no chapter-insertion entry point
    currentScene: Option<string>,       // None: no current scene or it has no name
    hasRecordingOutput: bool)
  {
    predicate CanOpen(path: string)
    {
      path != "" && path in writable
    }
  }

  /** Feedback banner texts and WebSocket response messages, by their translation key. */
  datatype Msg =
    | ChapterMarkerNotActive
    | NoExportMethod
    | NewChapter(name: string)
    | RecordingFinished
    | AnnotationErrorOutputNotActive
    | AnnotationErrorTextIsEmpty
    | AnnotationSaved
    | ChapterMarkerAdded
    | AnnotationRecordingNotActive
    | AnnotationAdded

  datatype Feedback = Feedback(message: Msg, isError: bool)

  /** Events emitted to WebSocket listeners. */
  datatype WsEvent =
    | ChapterMarkerSet(chapterName: string, chapterSource: string)
    | AnnotationSet(annotationText: string, timestamp: string, annotationSource: string)

  /** Calls the plugin makes into the host, in order. */
  datatype HostCall =
    | AddChapterToVideo(name: string)       // obs_frontend_recording_add_chapter
    | IncompatibleFileTypeWarning           // the modal warning box
    | VerticalAddChapter(name: string)      // proc handler "aitum_vertical_add_chapter"
    | RegisterHotkey(name: string)          // obs_hotkey_register_frontend
    | UnregisterHotkey(id: HotkeyId)        // obs_hotkey_unregister

  /** The sidecar files on disk and the two paths the dock remembers. */
  datatype Sidecars = Sidecars(files: map<string, seq<string>>, textPath: string, xmlPath: string)

  /** A saved preset hotkey: its chapter name, whether bindings were saved, and what registering it returns. */
  datatype SavedHotkey = SavedHotkey(chapterName: string, hasBindings: bool, registered: Option<HotkeyId>)

  /** How an annotation write ended. */
  datatype AnnotationOutcome = NotRecording | NoExport | EmptyText | TextWriteFailed | XmlWriteFailed | Saved

  datatype AnnotationResult = AnnotationResult(sidecars: Sidecars, outcome: AnnotationOutcome)

  /** Everything the dock keeps apart from its settings and the two feedback banners. */
  datatype Bookkeeping = Bookkeeping(
    chapterCount: nat,
    isFirstRunInRecording: bool,
    incompatibleFileTypeMessageShown: bool,
    sidecars: Sidecars,
    history: seq<string>,
    chapters: seq<string>,
    timestamps: seq<string>,
    currentChapterName: string,
    currentChapterLabel: string,
    events: seq<WsEvent>,
    hostCalls: seq<HostCall>,
    presetChapters: seq<string>,
    chapterHotkeys: map<string, HotkeyId>,
    ignoredScenes: seq<string>)

  /** The part of the dock's state a new marker builds on. */
  datatype MarkerBase = MarkerBase(
    isFirstRunInRecording: bool,
    incompatibleFileTypeMessageShown: bool,
    sidecars: Sidecars,
    hostCalls: seq<HostCall>,
    currentChapterLabel: string,
    history: seq<string>,
    chapters: seq<string>,
    timestamps: seq<string>,
    events: seq<WsEvent>)

  // ---------------------------------------------------------------- sidecar effects

  /** Opening `path` for appending and writing `chunk` to it (the file is created when missing). */
  function AppendChunk(files: map<string, seq<string>>, path: string, chunk: string): (r: map<string, seq<string>>)
    ensures path in r && r[path] == (if path in files then files[path] else []) + [chunk]
    ensures forall p :: p != path ==> (p in r <==> p in files) && (p in files ==> r[p] == files[p])
  {
    files[path := (if path in files then files[path] else []) + [chunk]]
  }

  /** `writeToFile`: the append happens only when the file opens. */
  function AppendIfOpen(host: Host, files: map<string, seq<string>>, path: string, chunk: string): map<string, seq<string>>
  {
    if host.CanOpen(path) then AppendChunk(files, path, chunk) else files
  }

  /**
   * `createExportFiles`: with file export on and a recording path known, each
   * enabled sidecar is created afresh next to the recording with its header,
   * and its path remembered; a sidecar that cannot be opened is left as it was.
   */
  function AfterCreateExportFiles(s: Settings, host: Host, sc: Sidecars): Sidecars
  {
    if !s.exportChaptersToFileEnabled || host.recordingPath.None? then sc
    else
      var out := host.recordingPath.value;
      var txt := ExportFilePath(out.directory, out.baseName, TextFileSuffix);
      var xml := ExportFilePath(out.directory, out.baseName, XmlFileSuffix);
      var a := if s.exportChaptersToTextEnabled && host.CanOpen(txt)
               then sc.(files := sc.files[txt := [TextHeader(out.baseName)]], textPath := txt)
               else sc;
      if s.exportChaptersToXMLEnabled && host.CanOpen(xml)
      then a.(files := a.files[xml := [XmlHeader(out.baseName)]], xmlPath := xml)
      else a
  }

  /**
   * `writeChapterToTextFile`: nothing unless file and text export are both on;
   * with no text path yet, only the files are created and this entry is
   * dropped; otherwise the chapter line is appended to the text sidecar.
   */
  function AfterTextWrite(s: Settings, host: Host, sc: Sidecars, name: string, timestamp: string, source: string): Sidecars
  {
    if !s.exportChaptersToFileEnabled || !s.exportChaptersToTextEnabled then sc
    else if sc.textPath == "" then AfterCreateExportFiles(s, host, sc)
    else
      var line := ChapterTextLine(timestamp, TextEntryName(name, source, s.addChapterSourceEnabled));
      sc.(files := AppendIfOpen(host, sc.files, sc.textPath, line))
  }

  /** `writeChapterToXMLFile`: the same gate and path rule, appending the chapter fragment. */
  function AfterXmlWrite(s: Settings, host: Host, sc: Sidecars, name: string, timestamp: string, source: string): Sidecars
  {
    if !s.exportChaptersToFileEnabled || !s.exportChaptersToXMLEnabled then sc
    else if sc.xmlPath == "" then AfterCreateExportFiles(s, host, sc)
    else sc.(files := AppendIfOpen(host, sc.files, sc.xmlPath, ChapterXmlEntry(name, timestamp, source)))
  }

  /** The two sidecar writes `addChapterMarker` makes, text first. */
  function AfterChapterWrites(s: Settings, host: Host, sc: Sidecars, name: string, timestamp: string, source: string): Sidecars
  {
    var t := if s.exportChaptersToTextEnabled then AfterTextWrite(s, host, sc, name, timestamp, source) else sc;
    if s.exportChaptersToXMLEnabled then AfterXmlWrite(s, host, t, name, timestamp, source) else t
  }

  /**
   * `writeAnnotationToFiles`: recording, file export and a non-empty text are
   * checked in that order; missing paths are created; then the text line and
   * the XML fragment are appended, and a failed write stops there.
   */
  function AnnotationWrite(s: Settings, labels: Labels, host: Host, sc: Sidecars,
                           text: string, timestamp: string, source: string): (r: AnnotationResult)
    ensures r.outcome == Saved ==> host.recordingActive && s.exportChaptersToFileEnabled && text != ""
    ensures forall p :: p in sc.files ==> p in r.sidecars.files
  {
    if !host.recordingActive then AnnotationResult(sc, NotRecording)
    else if !s.exportChaptersToFileEnabled then AnnotationResult(sc, NoExport)
    else if text == "" then AnnotationResult(sc, EmptyText)
    else
      var c := if sc.textPath == "" || sc.xmlPath == "" then AfterCreateExportFiles(s, host, sc) else sc;
      var line := ChapterTextLine(timestamp, AnnotationEntry(labels.annotation, text, source));
      if s.exportChaptersToTextEnabled && !host.CanOpen(c.textPath) then AnnotationResult(c, TextWriteFailed)
      else
        var t := if s.exportChaptersToTextEnabled then c.(files := AppendChunk(c.files, c.textPath, line)) else c;
        if s.exportChaptersToXMLEnabled && !host.CanOpen(t.xmlPath) then AnnotationResult(t, XmlWriteFailed)
        else
          var x := if s.exportChaptersToXMLEnabled
                   then t.(files := AppendChunk(t.files, t.xmlPath, AnnotationXmlEntry(timestamp, text, source)))
                   else t;
          AnnotationResult(x, Saved)
  }

  /** The annotation banner after a write: failed file opens are only logged, so they leave it as it was. */
  function AnnotationFeedback(outcome: AnnotationOutcome, before: Option<Feedback>): Option<Feedback>
  {
    match outcome
    case NotRecording => Some(Feedback(AnnotationErrorOutputNotActive, true))
    case NoExport => Some(Feedback(NoExportMethod, true))
    case EmptyText => Some(Feedback(AnnotationErrorTextIsEmpty, true))
    case TextWriteFailed => before
    case XmlWriteFailed => before
    case Saved => Some(Feedback(AnnotationSaved, false))
  }

  /**
   * The host calls of one insertion attempt: the chapter is offered to the
   * recording when the host can take it, a refusal raises the warning unless
   * it was already shown, and the vertical-output hand-off always follows.
   */
  function InsertionCalls(fullName: string, result: Option<bool>, warningShown: bool): (r: seq<HostCall>)
    ensures |r| > 0 && r[|r| - 1] == VerticalAddChapter(fullName)
    ensures AddChapterToVideo(fullName) in r <==> result.Some?
    ensures IncompatibleFileTypeWarning in r <==> result == Some(false) && !warningShown
  {
    (match result
     case None => []
     case Some(ok) => [AddChapterToVideo(fullName)] + (if !ok && !warningShown then [IncompatibleFileTypeWarning] else []))
    + [VerticalAddChapter(fullName)]
  }

  /** The name an unnamed manual marker gets, and the counter afterwards. */
  function ManualChapterName(input: string, defaultName: string, count: nat, incremental: bool): (r: (string, nat))
    ensures input != "" ==> r.0 == input
    ensures r.1 == count || r.1 == count + 1
    ensures r.1 == count + 1 <==> input == "" && incremental
  {
    if input != "" then (input, count)
    else if incremental then (DefaultChapterName(defaultName, count), count + 1)
    else (defaultName, count)
  }

  /** Preset hotkeys after loading saved entries: each entry with bindings is registered, and stored when that succeeds. */
  function LoadedHotkeys(m: map<string, HotkeyId>, saved: seq<SavedHotkey>): map<string, HotkeyId>
  {
    if saved == [] then m
    else
      var e := saved[|saved| - 1];
      var before := LoadedHotkeys(m, saved[..|saved| - 1]);
      if e.hasBindings && e.registered.Some? then before[e.chapterName := e.registered.value] else before
  }

  function LoadRegistrations(saved: seq<SavedHotkey>): seq<HostCall>
  {
    if saved == [] then []
    else
      var e := saved[|saved| - 1];
      LoadRegistrations(saved[..|saved| - 1]) + (if e.hasBindings then [RegisterHotkey(e.chapterName)] else [])
  }

  /** The unregister calls removing the selected presets makes, one per name that still has a hotkey. */
  function UnregisterCalls(m: map<string, HotkeyId>, names: seq<string>): seq<HostCall>
  {
    if names == [] then []
    else
      var n := names[|names| - 1];
      var rest := m - Elements(names[..|names| - 1]);
      UnregisterCalls(m, names[..|names| - 1]) + (if n in rest then [UnregisterHotkey(rest[n])] else [])
  }

  // ---------------------------------------------------------------- properties of the effects

  /**
   * A text write that finds no text path creates the sidecars but drops the
   * entry: a text sidecar it created holds only its header.
   */
  lemma UnsetTextPathDropsEntry(s: Settings, host: Host, sc: Sidecars, name: string, timestamp: string, source: string)
    requires s.exportChaptersToFileEnabled && s.exportChaptersToTextEnabled && sc.textPath == ""
    requires host.recordingPath.Some?
    ensures var r := AfterTextWrite(s, host, sc, name, timestamp, source);
            r.textPath != "" ==> r.textPath in r.files && r.files[r.textPath] == [TextHeader(host.recordingPath.value.baseName)]
  {
    var out := host.recordingPath.value;
    ExportPathsDistinct(out.directory, out.baseName);
  }

  /**
   * Once both sidecar paths are set, chapter writes only append: every file
   * keeps its old contents as a prefix and at most one chunk is added to it.
   */
  lemma ChapterWritesAppendOnly(s: Settings, host: Host, sc: Sidecars, name: string, timestamp: string, source: string)
    requires sc.textPath != "" && sc.xmlPath != ""
    ensures var r := AfterChapterWrites(s, host, sc, name, timestamp, source);
            && r.textPath == sc.textPath && r.xmlPath == sc.xmlPath
            && forall p :: p in sc.files ==> p in r.files && sc.files[p] <= r.files[p]
  {
  }

  /** Chapter writes are switched off by either export toggle: with file or text export off, the text write changes nothing. */
  lemma TextWriteGated(s: Settings, host: Host, sc: Sidecars, name: string, timestamp: string, source: string)
    requires !s.exportChaptersToFileEnabled || !s.exportChaptersToTextEnabled
    ensures AfterTextWrite(s, host, sc, name, timestamp, source) == sc
    ensures !s.exportChaptersToXMLEnabled ==> AfterChapterWrites(s, host, sc, name, timestamp, source) == sc
  {
  }

  /** The text sidecar receives exactly the chapter line, with the suffix only when the name lacks the source. */
  lemma TextWriteAppendsLine(s: Settings, host: Host, sc: Sidecars, name: string, timestamp: string, source: string)
    requires s.exportChaptersToFileEnabled && s.exportChaptersToTextEnabled && host.CanOpen(sc.textPath)
    ensures var r := AfterTextWrite(s, host, sc, name, timestamp, source);
            var before := if sc.textPath in sc.files then sc.files[sc.textPath] else [];
            && r.files[sc.textPath] == before + [timestamp + " - " + name
                                                  + (if s.addChapterSourceEnabled && !Contains(name, source) then " (" + source + ")" else "")
                                                  + "\n"]
            && forall p :: p != sc.textPath && p in sc.files ==> p in r.files && r.files[p] == sc.files[p]
  {
    var suffix := if s.addChapterSourceEnabled && !Contains(name, source) then " (" + source + ")" else "";
    assert TextEntryName(name, source, s.addChapterSourceEnabled) == name + suffix;
    assert ChapterTextLine(timestamp, name + suffix) == timestamp + " - " + name + suffix + "\n";
  }

  /** Each failed annotation check leaves the sidecars untouched, and they are checked in order. */
  lemma AnnotationGuardsInOrder(s: Settings, labels: Labels, host: Host, sc: Sidecars, text: string, timestamp: string, source: string)
    ensures var r := AnnotationWrite(s, labels, host, sc, text, timestamp, source);
            && (r.outcome in {NotRecording, NoExport, EmptyText} ==> r.sidecars == sc)
            && (r.outcome == NotRecording <==> !host.recordingActive)
            && (r.outcome == NoExport <==> host.recordingActive && !s.exportChaptersToFileEnabled)
            && (r.outcome == EmptyText <==> host.recordingActive && s.exportChaptersToFileEnabled && text == "")
  {
  }

  /** A failed text write returns before the XML sidecar is touched: its content is what the path creation left. */
  lemma AnnotationTextFailureSkipsXml(s: Settings, labels: Labels, host: Host, sc: Sidecars, text: string, timestamp: string, source: string)
    requires AnnotationWrite(s, labels, host, sc, text, timestamp, source).outcome == TextWriteFailed
    ensures var c := if sc.textPath == "" || sc.xmlPath == "" then AfterCreateExportFiles(s, host, sc) else sc;
            AnnotationWrite(s, labels, host, sc, text, timestamp, source).sidecars == c
  {
  }

  /** A saved annotation appends `<ts> - (<label>) <text> (<source>)` to the text sidecar when text export is on. */
  lemma AnnotationLine(s: Settings, labels: Labels, host: Host, sc: Sidecars, text: string, timestamp: string, source: string)
    requires sc.textPath != "" && sc.xmlPath != "" && s.exportChaptersToTextEnabled
    requires AnnotationWrite(s, labels, host, sc, text, timestamp, source).outcome == Saved
    ensures var r := AnnotationWrite(s, labels, host, sc, text, timestamp, source).sidecars;
            var before := if sc.textPath in sc.files then sc.files[sc.textPath] else [];
            && r.textPath == sc.textPath
            && r.files[sc.textPath][..|before| + 1] == before + [ChapterTextLine(timestamp, AnnotationEntry(labels.annotation, text, source))]
  {
    var line := ChapterTextLine(timestamp, AnnotationEntry(labels.annotation, text, source));
    var t := AppendChunk(sc.files, sc.textPath, line);
    var r := AnnotationWrite(s, labels, host, sc, text, timestamp, source).sidecars;
    assert r.files[sc.textPath] == t[sc.textPath] || r.files[sc.textPath] == t[sc.textPath] + [AnnotationXmlEntry(timestamp, text, source)];
  }

  /**
   * With file export on and only the text format enabled, the XML path is
   * never set, so every annotation re-creates the sidecars first: the text
   * sidecar of the recording is truncated to its header and ends up holding
   * only the latest annotation.
   */
  lemma AnnotationRecreatesTextSidecar(s: Settings, labels: Labels, host: Host, sc: Sidecars,
                                       text: string, timestamp: string, source: string)
    requires s.exportChaptersToFileEnabled && s.exportChaptersToTextEnabled && !s.exportChaptersToXMLEnabled
    requires host.recordingActive && text != "" && sc.xmlPath == "" && host.recordingPath.Some?
    requires var out := host.recordingPath.value;
             host.CanOpen(ExportFilePath(out.directory, out.baseName, TextFileSuffix))
    ensures var out := host.recordingPath.value;
            var path := ExportFilePath(out.directory, out.baseName, TextFileSuffix);
            var r := AnnotationWrite(s, labels, host, sc, text, timestamp, source);
            && r.outcome == Saved && r.sidecars.textPath == path
            && r.sidecars.files[path] == [TextHeader(out.baseName), ChapterTextLine(timestamp, AnnotationEntry(labels.annotation, text, source))]
  {
  }

  /**
   * An empty manual name takes the counter and bumps it by exactly one when
   * incremental names are on, and is the bare default name with the counter
   * left alone otherwise; a typed name is used as it is.
   */
  lemma ManualChapterNameRule(input: string, defaultName: string, count: nat, incremental: bool)
    ensures var r := ManualChapterName(input, defaultName, count, incremental);
            && (input != "" ==> r == (input, count))
            && (input == "" && incremental ==> r.0 == defaultName + " " + NatToString(count) && r.1 == count + 1)
            && (input == "" && !incremental ==> r == (defaultName, count))
  {
  }

  /** Two successive unnamed manual markers with incremental names on never get the same name. */
  lemma SuccessiveManualNamesDiffer(defaultName: string, count: nat)
    ensures var first := ManualChapterName("", defaultName, count, true);
            var second := ManualChapterName("", defaultName, first.1, true);
            first.0 != second.0
  {
    var first := ManualChapterName("", defaultName, count, true);
    if first.0 == ManualChapterName("", defaultName, first.1, true).0 {
      DefaultChapterNameInjective(defaultName, count, count + 1);
    }
  }

  // ---------------------------------------------------------------- the dock

  class ChapterMarkerDock {
    const labels: Labels
    var settings: Settings
    var ignoredScenes: seq<string>

    var chapterCount: nat
    var isFirstRunInRecording: bool
    var incompatibleFileTypeMessageShown: bool
    var exportTextFilePath: string
    var exportXMLFilePath: string

    var history: seq<string>       // rows of the previous-chapters view, most recent first
    var chapters: seq<string>
    var timestamps: seq<string>
    var currentChapterName: string  // the plugin-wide current chapter name
    var currentChapterLabel: string
    var feedback: Option<Feedback>
    var annotationFeedback: Option<Feedback>

    var presetChapters: seq<string>
    var chapterHotkeys: map<string, HotkeyId>

    var files: map<string, seq<string>>
    var events: seq<WsEvent>
    var hostCalls: seq<HostCall>

    /** The counter never drops below 1, the two parallel lists stay aligned and the view holds no name twice. */
    ghost predicate Valid()
      reads this`chapterCount, this`chapters, this`timestamps, this`history
    {
      1 <= chapterCount && |chapters| == |timestamps| && NoDuplicates(history)
    }

    function CurrentSidecars(): Sidecars
      reads this`files, this`exportTextFilePath, this`exportXMLFilePath
    {
      Sidecars(files, exportTextFilePath, exportXMLFilePath)
    }

    /** Everything but the settings and the two banners, as one value. */
    ghost function Snapshot(): Bookkeeping
      reads this`chapterCount, this`isFirstRunInRecording, this`incompatibleFileTypeMessageShown, this`files,
            this`exportTextFilePath, this`exportXMLFilePath, this`history, this`chapters, this`timestamps,
            this`currentChapterName, this`currentChapterLabel, this`events, this`hostCalls, this`presetChapters,
            this`chapterHotkeys, this`ignoredScenes
    {
      Bookkeeping(chapterCount, isFirstRunInRecording, incompatibleFileTypeMessageShown,
                  Sidecars(files, exportTextFilePath, exportXMLFilePath),
                  history, chapters, timestamps, currentChapterName, currentChapterLabel,
                  events, hostCalls, presetChapters, chapterHotkeys, ignoredScenes)
    }

    /** What `addChapterMarker` builds on, read off the dock. */
    ghost function Base(): MarkerBase
      reads this`isFirstRunInRecording, this`incompatibleFileTypeMessageShown, this`files, this`exportTextFilePath,
            this`exportXMLFilePath, this`hostCalls, this`currentChapterLabel, this`history, this`chapters,
            this`timestamps, this`events
    {
      MarkerBase(isFirstRunInRecording, incompatibleFileTypeMessageShown, Sidecars(files, exportTextFilePath, exportXMLFilePath),
                 hostCalls, currentChapterLabel, history, chapters, timestamps, events)
    }

    /**
     * The state `addChapterMarker` leaves when it starts from `b`: the
     * insertion attempt (skipped for the first marker of a recording and with
     * insertion off), the two sidecar writes, the label and banner, the
     * current name, the history view, the two lists, the event, and the
     * cleared first-run flag.
     */
    ghost predicate MarkerAddedTo(b: MarkerBase, name: string, source: string, host: Host)
      reads this`settings, this`hostCalls, this`incompatibleFileTypeMessageShown, this`files, this`exportTextFilePath,
            this`exportXMLFilePath, this`currentChapterLabel, this`feedback, this`currentChapterName, this`history,
            this`chapters, this`timestamps, this`events, this`isFirstRunInRecording
    {
      var fullName := FullNameOf(name, source);
      var attempt := !b.isFirstRunInRecording && settings.insertChapterMarkersInVideoEnabled;
      && hostCalls == b.hostCalls + (if attempt then InsertionCalls(fullName, host.addChapterResult, b.incompatibleFileTypeMessageShown)
                                     else [])
      && incompatibleFileTypeMessageShown == (b.incompatibleFileTypeMessageShown || (attempt && host.addChapterResult == Some(false)))
      && CurrentSidecars() == AfterChapterWrites(settings, host, b.sidecars, name, host.timestamp, source)
      && currentChapterLabel == (if settings.HasExportMethod() then fullName else b.currentChapterLabel)
      && feedback == Some(Feedback(NewChapter(fullName), false))
      && currentChapterName == fullName
      && history == MoveToFront(b.history, fullName)
      && chapters == [name] + b.chapters && timestamps == [host.timestamp] + b.timestamps
      && events == b.events + [ChapterMarkerSet(name, source)]
      && !isFirstRunInRecording
    }

    /** The name a marker is shown, inserted and remembered under. */
    function FullNameOf(name: string, source: string): string
      reads this`settings
    {
      FullChapterName(name, source, settings.addChapterSourceEnabled)
    }

    /** A dock with its settings loaded and no recording yet; `files` is what is on disk. */
    constructor (labels: Labels, settings: Settings, ignoredScenes: seq<string>, files: map<string, seq<string>>)
      ensures Valid()
      ensures this.labels == labels && this.settings == settings && this.ignoredScenes == ignoredScenes
      ensures Snapshot() == Bookkeeping(1, true, false, Sidecars(files, "", ""), [], [], [], "",
                                           labels.recordingNotActive, [], [], [], map[], ignoredScenes)
      ensures feedback == None && annotationFeedback == None
    {
      this.labels := labels;
      this.settings := settings;
      this.ignoredScenes := ignoredScenes;
      chapterCount := 1;
      isFirstRunInRecording := true;
      incompatibleFileTypeMessageShown := false;
      exportTextFilePath := "";
      exportXMLFilePath := "";
      history, chapters, timestamps := [], [], [];
      currentChapterName := "";
      currentChapterLabel := labels.recordingNotActive;
      feedback, annotationFeedback := None, None;
      presetChapters, chapterHotkeys := [], map[];
      this.files := files;
      events, hostCalls := [], [];
    }

    method ShowFeedbackMessage(message: Msg, isError: bool)
      modifies this`feedback
      ensures feedback == Some(Feedback(message, isError))
    {
      feedback := Some(Feedback(message, isError));
    }

    /** The current-chapter label shows the name, unless no export method is on: then the banner says so. */
    method UpdateCurrentChapterLabel(name: string)
      modifies this`feedback, this`currentChapterLabel
      ensures settings.HasExportMethod() ==> currentChapterLabel == name && feedback == old(feedback)
      ensures !settings.HasExportMethod() ==>
                currentChapterLabel == old(currentChapterLabel) && feedback == Some(Feedback(NoExportMethod, true))
    {
      if !settings.exportChaptersToFileEnabled && !settings.insertChapterMarkersInVideoEnabled {
        ShowFeedbackMessage(NoExportMethod, true);
        return;
      }
      currentChapterLabel := name;
    }

    method CreateExportFiles(host: Host)
      modifies this`files, this`exportTextFilePath, this`exportXMLFilePath
      ensures CurrentSidecars() == AfterCreateExportFiles(settings, host, old(CurrentSidecars()))
    {
      if !settings.exportChaptersToFileEnabled {
        return;
      }
      if host.recordingPath.None? {
        return;
      }
      var out := host.recordingPath.value;
      if settings.exportChaptersToTextEnabled {
        var path := ExportFilePath(out.directory, out.baseName, TextFileSuffix);
        if host.CanOpen(path) {
          files := files[path := [TextHeader(out.baseName)]];
          exportTextFilePath := path;
        }
      }
      if settings.exportChaptersToXMLEnabled {
        var path := ExportFilePath(out.directory, out.baseName, XmlFileSuffix);
        if host.CanOpen(path) {
          files := files[path := [XmlHeader(out.baseName)]];
          exportXMLFilePath := path;
        }
      }
    }

    method WriteToFile(path: string, content: string, host: Host) returns (ok: bool)
      modifies this`files
      ensures ok == host.CanOpen(path)
      ensures files == AppendIfOpen(host, old(files), path, content)
    {
      ok := host.CanOpen(path);
      if ok {
        files := AppendChunk(files, path, content);
      }
    }

    method WriteChapterToTextFile(name: string, timestamp: string, source: string, host: Host)
      modifies this`files, this`exportTextFilePath, this`exportXMLFilePath
      ensures CurrentSidecars() == AfterTextWrite(settings, host, old(CurrentSidecars()), name, timestamp, source)
    {
      if !settings.exportChaptersToFileEnabled || !settings.exportChaptersToTextEnabled {
        return;
      }
      if exportTextFilePath == "" {
        CreateExportFiles(host);
        return;
      }
      var fullName := name;
      if settings.addChapterSourceEnabled && !Contains(name, source) {
        fullName := fullName + SourceSuffix(source);
      }
      var ok := WriteToFile(exportTextFilePath, ChapterTextLine(timestamp, fullName), host);
    }

    method WriteChapterToXMLFile(name: string, timestamp: string, source: string, host: Host)
      modifies this`files, this`exportTextFilePath, this`exportXMLFilePath
      ensures CurrentSidecars() == AfterXmlWrite(settings, host, old(CurrentSidecars()), name, timestamp, source)
    {
      if !settings.exportChaptersToFileEnabled || !settings.exportChaptersToXMLEnabled {
        return;
      }
      if exportXMLFilePath == "" {
        CreateExportFiles(host);
        return;
      }
      var ok := WriteToFile(exportXMLFilePath, ChapterXmlEntry(name, timestamp, source), host);
    }

    method WriteAnnotationToFiles(text: string, timestamp: string, source: string, host: Host)
      modifies this`files, this`exportTextFilePath, this`exportXMLFilePath, this`annotationFeedback, this`events
      ensures var r := AnnotationWrite(settings, labels, host, old(CurrentSidecars()), text, timestamp, source);
              && CurrentSidecars() == r.sidecars
              && annotationFeedback == AnnotationFeedback(r.outcome, old(annotationFeedback))
              && events == old(events) + (if r.outcome == Saved then [AnnotationSet(text, timestamp, source)] else [])
    {
      if !host.recordingActive {
        annotationFeedback := Some(Feedback(AnnotationErrorOutputNotActive, true));
        return;
      }
      if !settings.exportChaptersToFileEnabled {
        annotationFeedback := Some(Feedback(NoExportMethod, true));
        return;
      }
      if text == "" {
        annotationFeedback := Some(Feedback(AnnotationErrorTextIsEmpty, true));
        return;
      }
      if exportTextFilePath == "" || exportXMLFilePath == "" {
        CreateExportFiles(host);
      }
      var entry := AnnotationEntry(labels.annotation, text, source);
      if settings.exportChaptersToTextEnabled {
        var ok := WriteToFile(exportTextFilePath, ChapterTextLine(timestamp, entry), host);
        if !ok {
          return;
        }
      }
      if settings.exportChaptersToXMLEnabled {
        var ok := WriteToFile(exportXMLFilePath, AnnotationXmlEntry(timestamp, text, source), host);
        if !ok {
          return;
        }
      }
      annotationFeedback := Some(Feedback(AnnotationSaved, false));
      events := events + [AnnotationSet(text, timestamp, source)];
    }

    /**
     * The bookkeeping after the writes: label, banner and current name show
     * the new marker, it goes to the top of the history view (once) and to
     * the front of the two lists, it is announced, and the first-run flag is
     * cleared.
     */
    method AnnounceChapter(fullName: string, name: string, source: string, timestamp: string)
      requires NoDuplicates(history) && |chapters| == |timestamps|
      modifies this`currentChapterLabel, this`feedback, this`currentChapterName, this`history, this`chapters,
               this`timestamps, this`events, this`isFirstRunInRecording
      ensures NoDuplicates(history) && |chapters| == |timestamps|
      ensures currentChapterLabel == (if settings.HasExportMethod() then fullName else old(currentChapterLabel))
      ensures feedback == Some(Feedback(NewChapter(fullName), false))
      ensures currentChapterName == fullName
      ensures history == MoveToFront(old(history), fullName)
      ensures chapters == [name] + old(chapters) && timestamps == [timestamp] + old(timestamps)
      ensures events == old(events) + [ChapterMarkerSet(name, source)]
      ensures !isFirstRunInRecording
    {
      UpdateCurrentChapterLabel(fullName);
      ShowFeedbackMessage(NewChapter(fullName), false);
      currentChapterName := fullName;

      MoveToFrontKeepsOneCopy(history, fullName);
      history := MoveToFront(history, fullName);
      chapters := [name] + chapters;
      timestamps := [timestamp] + timestamps;

      events := events + [ChapterMarkerSet(name, source)];
      isFirstRunInRecording := false;
    }

    /** The sidecar writes of one marker: text when enabled, then XML when enabled. */
    method WriteChapterToFiles(name: string, timestamp: string, source: string, host: Host)
      modifies this`files, this`exportTextFilePath, this`exportXMLFilePath
      ensures CurrentSidecars() == AfterChapterWrites(settings, host, old(CurrentSidecars()), name, timestamp, source)
    {
      if settings.exportChaptersToTextEnabled {
        WriteChapterToTextFile(name, timestamp, source, host);
      }
      if settings.exportChaptersToXMLEnabled {
        WriteChapterToXMLFile(name, timestamp, source, host);
      }
    }

    /** One insertion attempt into the recording and the vertical output. */
    method InsertChapterInVideo(fullName: string, host: Host)
      modifies this`hostCalls, this`incompatibleFileTypeMessageShown
      ensures hostCalls == old(hostCalls) + InsertionCalls(fullName, host.addChapterResult, old(incompatibleFileTypeMessageShown))
      ensures incompatibleFileTypeMessageShown == (old(incompatibleFileTypeMessageShown) || host.addChapterResult == Some(false))
    {
      if host.addChapterResult.Some? {
        hostCalls := hostCalls + [AddChapterToVideo(fullName)];
        if !host.addChapterResult.value {
          if !incompatibleFileTypeMessageShown {
            hostCalls := hostCalls + [IncompatibleFileTypeWarning];
            incompatibleFileTypeMessageShown := true;
          }
        }
      }
      hostCalls := hostCalls + [VerticalAddChapter(fullName)];
    }

    /**
     * What a marker does outside the dock: the insertion attempt, skipped for
     * the first marker of a recording and with insertion off, then the
     * sidecar writes.
     */
    method RecordChapter(fullName: string, name: string, source: string, host: Host)
      modifies this`hostCalls, this`incompatibleFileTypeMessageShown, this`files, this`exportTextFilePath, this`exportXMLFilePath
      ensures var attempt := !isFirstRunInRecording && settings.insertChapterMarkersInVideoEnabled;
              && hostCalls == old(hostCalls) + (if attempt then InsertionCalls(fullName, host.addChapterResult, old(incompatibleFileTypeMessageShown))
                                                else [])
              && incompatibleFileTypeMessageShown == (old(incompatibleFileTypeMessageShown) || (attempt && host.addChapterResult == Some(false)))
      ensures CurrentSidecars() == AfterChapterWrites(settings, host, old(CurrentSidecars()), name, host.timestamp, source)
    {
      ghost var sidecars0 := CurrentSidecars();
      if !isFirstRunInRecording && settings.insertChapterMarkersInVideoEnabled {
        InsertChapterInVideo(fullName, host);
      }
      assert CurrentSidecars() == sidecars0;
      WriteChapterToFiles(name, host.timestamp, source, host);
    }

    /**
     * `addChapterMarker`: the marker is offered to the recording unless it is
     * the first of the recording, written to the enabled sidecars, shown,
     * moved to the top of the history view, prepended to the chapter and
     * timestamp lists and announced; the first-run flag is then cleared.
     */
    method AddChapterMarker(name: string, source: string, host: Host)
      requires Valid()
      modifies this`hostCalls, this`incompatibleFileTypeMessageShown, this`files, this`exportTextFilePath,
               this`exportXMLFilePath, this`currentChapterLabel, this`feedback, this`currentChapterName,
               this`history, this`chapters, this`timestamps, this`events, this`isFirstRunInRecording
      ensures Valid()
      ensures MarkerAddedTo(old(Base()), name, source, host)
    {
      var fullName := FullNameOf(name, source);
      RecordChapter(fullName, name, source, host);
      AnnounceChapter(fullName, name, source, host.timestamp);
    }

    /**
     * The save button: refused while not recording or with no export method
     * on (only the banner changes); otherwise an empty name is replaced by
     * the default name, counted when incremental names are on.
     */
    method OnAddChapterMarkerButton(input: string, host: Host)
      requires Valid()
      modifies this`hostCalls, this`incompatibleFileTypeMessageShown, this`files, this`exportTextFilePath,
               this`exportXMLFilePath, this`currentChapterLabel, this`feedback, this`currentChapterName,
               this`history, this`chapters, this`timestamps, this`events, this`isFirstRunInRecording,
               this`chapterCount
      ensures Valid()
      ensures !host.recordingActive ==>
                Snapshot() == old(Snapshot()) && feedback == Some(Feedback(ChapterMarkerNotActive, true))
      ensures host.recordingActive && !settings.HasExportMethod() ==>
                Snapshot() == old(Snapshot()) && feedback == Some(Feedback(NoExportMethod, true))
      ensures host.recordingActive && settings.HasExportMethod() ==>
                var named := ManualChapterName(input, settings.defaultChapterName, old(chapterCount),
                                               settings.useIncrementalChapterNames);
                && chapterCount == named.1
                && MarkerAddedTo(old(Base()), named.0, labels.sourceManual, host)
    {
      if !host.recordingActive {
        ShowFeedbackMessage(ChapterMarkerNotActive, true);
        return;
      }
      if !settings.exportChaptersToFileEnabled && !settings.insertChapterMarkersInVideoEnabled {
        ShowFeedbackMessage(NoExportMethod, true);
        return;
      }
      var chapterName := NameManualMarker(input);
      AddChapterMarker(chapterName, labels.sourceManual, host);
    }

    /** The name a manual marker gets: the typed text, or the default name, numbered when numbering is on. */
    method NameManualMarker(input: string) returns (chapterName: string)
      modifies this`chapterCount
      ensures (chapterName, chapterCount)
              == ManualChapterName(input, settings.defaultChapterName, old(chapterCount), settings.useIncrementalChapterNames)
    {
      chapterName := input;
      if chapterName == "" {
        if settings.useIncrementalChapterNames {
          chapterName := DefaultChapterName(settings.defaultChapterName, chapterCount);
          chapterCount := chapterCount + 1;
        } else {
          chapterName := settings.defaultChapterName;
        }
      }
    }

    /** A scene change adds a marker named after the new scene, unless the scene is ignored. */
    method OnSceneChanged(host: Host)
      requires Valid()
      modifies this`hostCalls, this`incompatibleFileTypeMessageShown, this`files, this`exportTextFilePath,
               this`exportXMLFilePath, this`currentChapterLabel, this`feedback, this`currentChapterName,
               this`history, this`chapters, this`timestamps, this`events, this`isFirstRunInRecording
      ensures Valid()
      ensures var adds := settings.chapterOnSceneChangeEnabled && host.recordingActive && host.currentScene.Some?
                          && host.currentScene.value !in ignoredScenes;
              && (!adds ==> Snapshot() == old(Snapshot()) && feedback == old(feedback))
              && (adds ==> MarkerAddedTo(old(Base()), host.currentScene.value, labels.changeScene, host))
    {
      if settings.chapterOnSceneChangeEnabled && host.recordingActive {
        if host.currentScene.Some? {
          var sceneName := host.currentScene.value;
          if sceneName !in ignoredScenes {
            AddChapterMarker(sceneName, labels.changeScene, host);
          }
        }
      }
    }

    method ClearPreviousChaptersGroup()
      modifies this`history, this`chapters, this`timestamps
      ensures history == [] && chapters == [] && timestamps == []
    {
      history := [];
      chapters := [];
      timestamps := [];
    }

    /**
     * Recording stopped: with no export method on only the banner changes;
     * otherwise the "End" line is written to the text sidecar, the history is
     * emptied, the counter goes back to 1 and the warning may show again.
     */
    method OnRecordingStopped(host: Host)
      requires Valid()
      modifies this`feedback, this`currentChapterLabel, this`files, this`exportTextFilePath, this`exportXMLFilePath,
               this`history, this`chapters, this`timestamps, this`incompatibleFileTypeMessageShown, this`chapterCount
      ensures Valid()
      ensures !settings.HasExportMethod() ==>
                Snapshot() == old(Snapshot()) && feedback == Some(Feedback(NoExportMethod, true))
      ensures settings.HasExportMethod() ==>
                && currentChapterLabel == labels.recordingNotActive
                && feedback == Some(Feedback(RecordingFinished, false))
                && CurrentSidecars() == AfterTextWrite(settings, host, old(CurrentSidecars()), labels.end, host.timestamp, labels.recording)
                && history == [] && chapters == [] && timestamps == []
                && !incompatibleFileTypeMessageShown && chapterCount == 1
    {
      if !settings.exportChaptersToFileEnabled && !settings.insertChapterMarkersInVideoEnabled {
        ShowFeedbackMessage(NoExportMethod, true);
        return;
      }
      currentChapterLabel := labels.recordingNotActive;
      ShowFeedbackMessage(RecordingFinished, false);
      WriteChapterToTextFile(labels.end, host.timestamp, labels.recording, host);
      ClearPreviousChaptersGroup();
      incompatibleFileTypeMessageShown := false;
      chapterCount := 1;
    }

    /** A hotkey is registered for a name that has none yet, and kept only if the host returned a valid id. */
    method RegisterChapterHotkey(name: string, registered: Option<HotkeyId>)
      modifies this`chapterHotkeys, this`hostCalls
      ensures name in old(chapterHotkeys) ==> chapterHotkeys == old(chapterHotkeys) && hostCalls == old(hostCalls)
      ensures name !in old(chapterHotkeys) ==>
                && hostCalls == old(hostCalls) + [RegisterHotkey(name)]
                && chapterHotkeys == (if registered.Some? then old(chapterHotkeys)[name := registered.value] else old(chapterHotkeys))
    {
      if name !in chapterHotkeys {
        hostCalls := hostCalls + [RegisterHotkey(name)];
        if registered.Some? {
          chapterHotkeys := chapterHotkeys[name := registered.value];
        }
      }
    }

    method UnregisterChapterHotkey(name: string)
      modifies this`chapterHotkeys, this`hostCalls
      ensures chapterHotkeys == old(chapterHotkeys) - {name}
      ensures hostCalls == old(hostCalls) + (if name in old(chapterHotkeys) then [UnregisterHotkey(old(chapterHotkeys)[name])] else [])
    {
      if name in chapterHotkeys {
        var id := chapterHotkeys[name];
        hostCalls := hostCalls + [UnregisterHotkey(id)];
        chapterHotkeys := chapterHotkeys - {name};
      }
    }

    /** The preset dialog's add button: the trimmed name is appended and given a hotkey, unless empty or already a preset. */
    method AddPresetChapter(input: string, registered: Option<HotkeyId>)
      modifies this`presetChapters, this`chapterHotkeys, this`hostCalls
      ensures var name := Trimmed(input);
              && (name == "" || name in old(presetChapters) ==>
                    presetChapters == old(presetChapters) && chapterHotkeys == old(chapterHotkeys) && hostCalls == old(hostCalls))
              && (name != "" && name !in old(presetChapters) ==>
                    && presetChapters == old(presetChapters) + [name]
                    && chapterHotkeys == (if name in old(chapterHotkeys) || registered.None? then old(chapterHotkeys)
                                          else old(chapterHotkeys)[name := registered.value])
                    && hostCalls == old(hostCalls) + (if name in old(chapterHotkeys) then [] else [RegisterHotkey(name)]))
      ensures NoDuplicates(old(presetChapters)) ==> NoDuplicates(presetChapters)
    {
      var name := Trimmed(input);
      if name != "" && name !in presetChapters {
        if NoDuplicates(presetChapters) {
          AppendNewNoDuplicates(presetChapters, name);
        }
        presetChapters := presetChapters + [name];
        RegisterChapterHotkey(name, registered);
      }
    }

    /** The preset dialog's remove button: each selected name loses one occurrence and its hotkey. */
    method RemovePresetChapters(selected: seq<string>)
      modifies this`presetChapters, this`chapterHotkeys, this`hostCalls
      ensures presetChapters == RemoveEach(old(presetChapters), selected)
      ensures chapterHotkeys == old(chapterHotkeys) - Elements(selected)
      ensures hostCalls == old(hostCalls) + UnregisterCalls(old(chapterHotkeys), selected)
      ensures NoDuplicates(old(presetChapters)) ==>
                NoDuplicates(presetChapters) && forall n :: n in selected ==> n !in presetChapters
    {
      var i := 0;
      while i < |selected|
        invariant 0 <= i <= |selected|
        invariant presetChapters == RemoveEach(old(presetChapters), selected[..i])
        invariant chapterHotkeys == old(chapterHotkeys) - Elements(selected[..i])
        invariant hostCalls == old(hostCalls) + UnregisterCalls(old(chapterHotkeys), selected[..i])
      {
        var name := selected[i];
        assert selected[..i + 1][..i] == selected[..i];
        presetChapters := RemoveFirst(presetChapters, name);
        UnregisterChapterHotkey(name);
        assert Elements(selected[..i + 1]) == Elements(selected[..i]) + {name};
        i := i + 1;
      }
      assert selected[..|selected|] == selected;
      if NoDuplicates(old(presetChapters)) {
        RemoveEachRemovesAll(old(presetChapters), selected);
      }
    }

    /** The ignored-scenes dialog's OK button: the ignored scenes become exactly the selected ones. */
    method SaveIgnoredScenes(selected: seq<string>)
      modifies this`ignoredScenes
      ensures ignoredScenes == selected
    {
      ignoredScenes := [];
      var i := 0;
      while i < |selected|
        invariant 0 <= i <= |selected|
        invariant ignoredScenes == selected[..i]
      {
        ignoredScenes := ignoredScenes + [selected[i]];
        i := i + 1;
      }
    }

    /** Saved preset hotkeys are registered again, without the already-registered check of the dialog. */
    method LoadChapterHotkeys(saved: seq<SavedHotkey>)
      modifies this`chapterHotkeys, this`hostCalls
      ensures chapterHotkeys == LoadedHotkeys(old(chapterHotkeys), saved)
      ensures hostCalls == old(hostCalls) + LoadRegistrations(saved)
    {
      var i := 0;
      while i < |saved|
        invariant 0 <= i <= |saved|
        invariant chapterHotkeys == LoadedHotkeys(old(chapterHotkeys), saved[..i])
        invariant hostCalls == old(hostCalls) + LoadRegistrations(saved[..i])
      {
        var e := saved[i];
        assert saved[..i + 1][..i] == saved[..i];
        if e.hasBindings {
          hostCalls := hostCalls + [RegisterHotkey(e.chapterName)];
          if e.registered.Some? {
            chapterHotkeys := chapterHotkeys[e.chapterName := e.registered.value];
          }
        }
        i := i + 1;
      }
      assert saved[..|saved|] == saved;
    }

    /** Saved preset names are appended as they are, duplicates included. */
    method LoadPresetChapters(names: seq<string>)
      modifies this`presetChapters
      ensures presetChapters == old(presetChapters) + names
    {
      var i := 0;
      while i < |names|
        invariant 0 <= i <= |names|
        invariant presetChapters == old(presetChapters) + names[..i]
      {
        presetChapters := presetChapters + [names[i]];
        i := i + 1;
      }
      assert names[..|names|] == names;
    }
  }
}
