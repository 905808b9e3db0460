# Chapter-marker bookkeeping of the StreamUP Record Chapter Manager

This project models the bookkeeping core of the OBS plugin "StreamUP Record Chapter Manager". The core is the `ChapterMarkerDock` state machine together with the plugin-level handlers that feed it:
- the recording start and stop events;
- the `setChapterMarker`, `getCurrentChapterMarker` and `setAnnotation` WebSocket requests;
- the default and preset chapter hotkeys;
- the one-time load of saved preset hotkeys.

When a chapter marker is added, the dock:
- names it, adding a source suffix when configured;
- offers it to the recording for insertion into the video file;
- appends it to the text and XML sidecar files;
- puts it at the top of the history view;
- records it in the parallel `chapters`/`timestamps` lists;
- emits a `ChapterMarkerSet` event.

Annotations go through their own guard chain into the same sidecar files.

Files:

- `wrappers.dfy`: `Option`.
- `strings.dfy` (`Strings`): the string helpers the source gets from Qt.
  - `QString::contains` becomes `Contains`.
  - `QString::number` becomes `NatToString`, with a proved round trip.
  - `QString::trimmed` becomes `Trimmed`, over the `QChar::isSpace` characters.
- `lists.dfy` (`Lists`):
  - `QList::removeOne` becomes `RemoveFirst`;
  - the history view's move-to-top becomes `MoveToFront`;
  - duplicate-freedom and its preservation.
- `chapter_format.dfy` (`ChapterFormat`): the sidecar paths, headers, line and fragment formats, the source-suffix rules and the default chapter name.
- `chapter_marker_dock.dfy` (`MarkerDock`): the dock as a class with one field per piece of state. It also holds pure functions giving the effect of each sidecar write on `Sidecars` (files, text path, XML path), and the lemmas about them. Every state-changing method states the new value of every field it may modify. The state a new marker leaves is stated once, by the predicate `MarkerAddedTo`, which every handler that adds a marker uses in its contract.
- `chapter_manager.dfy` (`ChapterManager`): the event, WebSocket and hotkey handlers, as module-level methods that take the dock as a parameter, and the static `is_first_run` flag of the hotkey load as a class.

The host is abstracted as a `Host` value. It carries:
- whether recording is active;
- the formatted recording time;
- the recording's directory and base name;
- the set of paths a file can be opened on;
- the result of inserting a chapter into the video, with `None` when the host has no insertion entry point;
- the current scene name;
- whether a recording output exists.

Sidecar files are a map from path to the chunks written to it. Emitted WebSocket events and the calls made into the host are logs: insertion, the incompatible-format warning, the vertical-output hand-off, and hotkey (un)registration. Localised strings are the fields of a `Labels` record. Feedback banners hold the message key and the error flag.

Where the code behaves unexpectedly, the model follows the code:
- The XML chapter fragment is written in the order Name, Timestamp, Source.
- The text sidecar checks whether the name contains the bare source, not the suffix ` (source)`, before appending the suffix. `ChapterFormat.TextEntryMayOmitSuffix` shows a name that appears in the text sidecar without its suffix while the history view shows it with the suffix.
- `setAnnotation` forwards the annotation before validating it, with the source as received. The "WebSocket" default for an empty source is assigned after that and is never used. The request reports success whenever recording is active and the text is non-empty, even when file export is off and nothing was written.
- `setChapterMarker` counts an unnamed marker whatever the incremental-names setting says, and does not check for an export method.
- The recording-stopped handler leaves `isFirstRunInRecording` and the current chapter name as they were.
- An annotation re-creates the sidecar files whenever either path is unset. With file export on and only one of the two formats enabled, the other path is never set, so every annotation truncates the enabled sidecar to its header before writing: earlier chapters and annotations in it are lost. `MarkerDock.AnnotationRecreatesTextSidecar` states this for the text sidecar.

## Model

| member | source | states |
|---|---|---|
| Strings.ContainsAt | chapter-marker-dock.cpp:1005 | an occurrence at any index makes `Contains` true |
| Strings.ContainsIffOccurs | chapter-marker-dock.cpp:1005 | `QString::contains` holds exactly when the substring occurs at some index |
| Strings.ContainsWitness | chapter-marker-dock.cpp:1166 | whatever `Contains` finds sits at an index of the string |
| Strings.ContainsAppended | chapter-marker-dock.cpp:1165-1167 | a string with `t` appended contains `t` |
| Strings.NatToString | chapter-marker-dock.cpp:273 | `QString::number` of a count is a non-empty string of decimal digits, longer than one digit from 10 on |
| Strings.NatToStringRoundTrip | chapter-marker-dock.cpp:273 | reading the digits of `NatToString(n)` back gives `n` |
| Strings.NatToStringInjective | chapter-marker-dock.cpp:273 | different counts print differently |
| Strings.Trimmed | chapter-marker-dock.cpp:724 | `QString::trimmed`: the result is a slice of the input, everything cut off is white space, and its ends are not white space |
| Strings.TrimmedIdempotent | chapter-marker-dock.cpp:724 | trimming twice is trimming once |
| Strings.TrimmedEmptyIff | chapter-marker-dock.cpp:724-725 | a preset name is rejected as empty exactly when it is all white space |
| Lists.NoDuplicatesByIndex | chapter-marker-dock.cpp:725 | the recursive duplicate-freedom equals "no two positions hold equal items" |
| Lists.AppendNewNoDuplicates | chapter-marker-dock.cpp:725-726 | appending an absent name keeps a list duplicate-free |
| Lists.IndexOf | chapter-marker-dock.cpp:1221-1223 | the first position holding `x`, and `x` occurs nowhere before it |
| Lists.RemoveFirst | chapter-marker-dock.cpp:735 | `removeOne`: unchanged when the item is absent; otherwise one copy fewer (multiset), with the other items in their order |
| Lists.RemoveFirstNoDuplicates | chapter-marker-dock.cpp:735 | removing from a duplicate-free list keeps it duplicate-free and removes the item entirely |
| Lists.MoveToFront | chapter-marker-dock.cpp:1220-1224 | the item is row 0, an earlier row holding it is removed, and the other rows keep their order |
| Lists.MoveToFrontKeepsOneCopy | chapter-marker-dock.cpp:1220-1224 | on a duplicate-free view, the item ends up exactly once, at the top, and the view stays duplicate-free |
| Lists.RemoveEach | chapter-marker-dock.cpp:733-741 | removing the selected names never lengthens the list |
| Lists.RemoveEachRemovesAll | chapter-marker-dock.cpp:733-741 | from a duplicate-free preset list, removing the selected names removes every one of them and keeps it duplicate-free |
| ChapterFormat.ExportFilePath | chapter-marker-dock.cpp:953 | `<directory>/<base name><suffix>`: the directory, a slash, the base name and the suffix, in that order and nothing else |
| ChapterFormat.TextHeader | chapter-marker-dock.cpp:957 | `Chapter Markers for <base name>` and a newline |
| ChapterFormat.XmlHeader | chapter-marker-dock.cpp:972-974 | the `<ChapterMarkers>` stub with the base name as title, ending in the closing tag |
| ChapterFormat.ChapterTextLine | chapter-marker-dock.cpp:1009 | `<timestamp> - <name>` and a newline, each part where it belongs |
| ChapterFormat.ChapterXmlEntry | chapter-marker-dock.cpp:1039-1043 | the `<Chapter>` fragment opens with the name and closes with the source and the closing tag |
| ChapterFormat.AnnotationEntry | chapter-marker-dock.cpp:1072 | `(<annotation label>) <text> (<source>)`, each part where it belongs |
| ChapterFormat.AnnotationXmlEntry | chapter-marker-dock.cpp:1085-1090 | the `<Annotation>` fragment opens with the timestamp and is closed by its tag |
| ChapterFormat.ExportPathsDistinct | chapter-marker-dock.cpp:953-968 | the text and XML sidecar paths of one recording differ |
| ChapterFormat.FullChapterName | chapter-marker-dock.cpp:1161-1169 | without source suffixing the name is unchanged; with it the result contains ` (source)`; it is the name exactly when the name already contains ` (source)`, else the name with that suffix |
| ChapterFormat.FullChapterNameIdempotent | chapter-marker-dock.cpp:1165-1169 | suffixing an already suffixed name changes nothing |
| ChapterFormat.TextEntryName | chapter-marker-dock.cpp:1002-1007 | the text-sidecar name contains the source when suffixing is on; it is the name exactly when the name already contains the bare source, else the name with ` (source)` |
| ChapterFormat.TextEntryNameIdempotent | chapter-marker-dock.cpp:1005-1007 | the text-sidecar suffixing applied twice is applied once |
| ChapterFormat.TextEntryMayOmitSuffix | chapter-marker-dock.cpp:1005 | "Manual cut" from source "Manual" is written to the text sidecar without a suffix but shown as "Manual cut (Manual)" |
| ChapterFormat.DefaultChapterNameInjective | chapter-marker-dock.cpp:273 | default names with different counts differ |
| MarkerDock.AppendChunk | chapter-marker-dock.cpp:1127-1138 | an append-mode write adds the chunk after the file's old contents (a missing file starts empty) and touches no other file |
| MarkerDock.UnsetTextPathDropsEntry | chapter-marker-dock.cpp:996-1000 | with no text path, the text write only creates the files: the text sidecar it created holds only its header, and the entry is lost |
| MarkerDock.ChapterWritesAppendOnly | chapter-marker-dock.cpp:990-1045 | once both paths are set, chapter writes keep both paths and every file's old contents as a prefix |
| MarkerDock.TextWriteGated | chapter-marker-dock.cpp:992-994 | with file or text export off the text write changes nothing, and with XML off too no chapter write does |
| MarkerDock.TextWriteAppendsLine | chapter-marker-dock.cpp:1002-1012 | the text sidecar gains exactly `ts - name[ (source)]\n`, with the suffix only when suffixing is on and the name lacks the source; no other file changes |
| MarkerDock.AnnotationGuardsInOrder | chapter-marker-dock.cpp:1050-1063 | recording, file export and non-empty text are checked in that order, each failure exactly characterised and leaving the sidecars untouched |
| MarkerDock.AnnotationTextFailureSkipsXml | chapter-marker-dock.cpp:1065-1081 | a failed text write returns with the sidecars as the path creation left them: no XML write |
| MarkerDock.AnnotationLine | chapter-marker-dock.cpp:1070-1081 | a saved annotation appends one text line, `ChapterTextLine` of the timestamp and `AnnotationEntry` (`ts - (Annotation) text (source)\n`), after the text sidecar's old contents |
| MarkerDock.AnnotationWrite | chapter-marker-dock.cpp:1050-1097 | an annotation is saved only while recording, with file export on and a non-empty text; no sidecar file disappears |
| MarkerDock.AnnotationRecreatesTextSidecar | chapter-marker-dock.cpp:1066-1076 | with only the text format on, an annotation leaves the text sidecar holding its header and this annotation's line alone |
| MarkerDock.InsertionCalls | chapter-marker-dock.cpp:1171-1197 | the host calls of an insertion attempt: insertion is called iff the host has the entry point, the warning is raised iff the insertion was refused and not yet shown, and the vertical hand-off always comes last |
| MarkerDock.ManualChapterName | chapter-marker-dock.cpp:269-278 | a typed name is used as is; the counter rises by one exactly when the name is empty and incremental names are on, and otherwise stays |
| MarkerDock.ManualChapterNameRule | chapter-marker-dock.cpp:269-278 | a typed name is kept; an empty name is `default + " " + count` with the count raised by exactly one when incremental names are on, else the bare default with the count unchanged |
| MarkerDock.SuccessiveManualNamesDiffer | chapter-marker-dock.cpp:269-274 | two successive unnamed manual markers with incremental names get different names |
| MarkerDock.ChapterMarkerDock.constructor | chapter-marker-dock.cpp:32-94 | counter 1, first-run flag set, warning not shown, no paths, empty history, lists, presets and hotkeys, label "recording not active" |
| MarkerDock.ChapterMarkerDock.ShowFeedbackMessage | chapter-marker-dock.cpp:404-421 | the banner shows the message with its error flag |
| MarkerDock.ChapterMarkerDock.UpdateCurrentChapterLabel | chapter-marker-dock.cpp:385-402 | with an export method on the label shows the name; otherwise only the banner changes, to "no export method" |
| MarkerDock.ChapterMarkerDock.CreateExportFiles | chapter-marker-dock.cpp:915-983 | the sidecars become `AfterCreateExportFiles`: each enabled file that opens is truncated to its header and its path remembered |
| MarkerDock.ChapterMarkerDock.WriteToFile | chapter-marker-dock.cpp:1127-1138 | reports whether the path opens and appends the content exactly then |
| MarkerDock.ChapterMarkerDock.WriteChapterToTextFile | chapter-marker-dock.cpp:990-1013 | the sidecars become `AfterTextWrite` of the old ones |
| MarkerDock.ChapterMarkerDock.WriteChapterToXMLFile | chapter-marker-dock.cpp:1020-1045 | the sidecars become `AfterXmlWrite` of the old ones |
| MarkerDock.ChapterMarkerDock.WriteAnnotationToFiles | chapter-marker-dock.cpp:1047-1109 | sidecars, annotation banner and event log follow `AnnotationWrite`; the event is emitted only when the annotation was saved |
| MarkerDock.ChapterMarkerDock.InsertChapterInVideo | chapter-marker-dock.cpp:1172-1196 | the insertion, the warning on the first refusal, and the vertical hand-off are logged, and the warning flag is set on refusal |
| MarkerDock.ChapterMarkerDock.WriteChapterToFiles | chapter-marker-dock.cpp:1199-1207 | the text write (when text is enabled) then the XML write (when XML is enabled) |
| MarkerDock.ChapterMarkerDock.RecordChapter | chapter-marker-dock.cpp:1171-1207 | insertion is attempted iff this is not the first marker of the recording and insertion is on, then the sidecars become `AfterChapterWrites` |
| MarkerDock.ChapterMarkerDock.AnnounceChapter | chapter-marker-dock.cpp:1211-1237 | label, banner and current name show the full name; it heads the history exactly once; `chapters`/`timestamps` gain the raw name and timestamp at index 0; the event is logged; the first-run flag is cleared |
| MarkerDock.ChapterMarkerDock.AddChapterMarker | chapter-marker-dock.cpp:1160-1238 | `MarkerAddedTo` the old state: host calls, warning flag, sidecars, label, banner, current name, history, lists, event log and first-run flag, each given outright; insertion is attempted iff not the first marker and insertion is on; the history invariant and equal list lengths are kept |
| MarkerDock.ChapterMarkerDock.OnAddChapterMarkerButton | chapter-marker-dock.cpp:256-282 | not recording or no export method: only the banner changes; otherwise the counter becomes the one `ManualChapterName` gives and the rest of the state is `MarkerAddedTo` the old state, for the manual name and the manual source |
| MarkerDock.ChapterMarkerDock.NameManualMarker | chapter-marker-dock.cpp:269-278 | the name and the new counter are those `ManualChapterName` gives |
| MarkerDock.ChapterMarkerDock.OnSceneChanged | chapter-marker-dock.cpp:1141-1156 | a marker named after the scene is added iff the option is on, recording is active, the scene has a name and it is not ignored, and the new state is then `MarkerAddedTo` the old one with the scene-change source; otherwise nothing changes |
| MarkerDock.ChapterMarkerDock.ClearPreviousChaptersGroup | chapter-marker-dock.cpp:332-337 | history, chapters and timestamps are emptied |
| MarkerDock.ChapterMarkerDock.OnRecordingStopped | chapter-marker-dock.cpp:292-314 | no export method: only the banner changes; otherwise the "End" line goes through the text write, the lists are emptied, the counter is 1 and the warning may show again |
| MarkerDock.ChapterMarkerDock.RegisterChapterHotkey | chapter-marker-dock.cpp:752-762 | no effect for a name that has a hotkey; otherwise registration is logged and the id stored only when valid |
| MarkerDock.ChapterMarkerDock.UnregisterChapterHotkey | chapter-marker-dock.cpp:764-771 | the name leaves the map, and its id is unregistered when it had one |
| MarkerDock.ChapterMarkerDock.AddPresetChapter | chapter-marker-dock.cpp:723-731 | the trimmed name is appended iff non-empty and not yet a preset; then registration is logged and a granted id stored unless the name already has a hotkey; otherwise nothing changes; duplicate-freedom is kept |
| MarkerDock.ChapterMarkerDock.RemovePresetChapters | chapter-marker-dock.cpp:733-741 | one occurrence of each selected name is removed, the selected names leave the hotkey map, and their ids are unregistered in order; a duplicate-free list loses all of them |
| MarkerDock.ChapterMarkerDock.SaveIgnoredScenes | chapter-marker-dock.cpp:898-905 | the ignored scenes become exactly the selection |
| MarkerDock.ChapterMarkerDock.LoadChapterHotkeys | chapter-marker-dock.cpp:791-815 | each saved entry with bindings is registered without a contains check, and its id stored when valid |
| MarkerDock.ChapterMarkerDock.LoadPresetChapters | chapter-marker-dock.cpp:817-832 | saved preset names are appended in order, duplicates included |
| ChapterManager.AnnotationResponseAgainstWrite | streamup-record-chapter-manager.cpp:168-213 | a success response implies the write passed its recording and text checks; a saved annotation is reported as success; with file export off a success is reported although nothing was written |
| ChapterManager.FindHotkeyName | streamup-record-chapter-manager.cpp:292-298 | a name it finds maps to the id, and it finds none exactly when no name maps to the id |
| ChapterManager.OnStartRecording | streamup-record-chapter-manager.cpp:51-66 | no export method: only the banner changes; otherwise the state is `MarkerAddedTo` the old state with its sidecars as `AfterCreateExportFiles` leaves them, for the "Start" marker from the recording source |
| ChapterManager.AddStartMarker | streamup-record-chapter-manager.cpp:62-65 | the files are created, then the "Start" marker is added on top of the created files |
| ChapterManager.OnRecordingStartedEvent | streamup-record-chapter-manager.cpp:71-77 | with an export method, the state is `MarkerAddedTo` the old state with the first-run flag raised, the label "Start" and the created files, so the host calls and the warning flag are unchanged: the "Start" marker is never offered to the recording; without one, only the flag and the banner change; the counter is not reset |
| ChapterManager.RaiseFirstRunFlag | streamup-record-chapter-manager.cpp:73-74 | the first-run flag is raised and the label reads "Start" with an export method; without one only the flag and the banner change |
| ChapterManager.OnRecordingStoppedEvent | streamup-record-chapter-manager.cpp:78-83 | the banner ends on "recording finished" |
| ChapterManager.SetChapterMarkerRequest | streamup-record-chapter-manager.cpp:97-138 | success iff recording; when not recording nothing changes; otherwise the counter is the one counted default naming gives and the state is `MarkerAddedTo` the old state, for that name and the source or "WebSocket" |
| ChapterManager.GetCurrentChapterMarkerRequest | streamup-record-chapter-manager.cpp:140-166 | success with the name iff the current name is non-empty; otherwise "recording not active" or "error getting chapter name", depending on whether a recording output exists |
| ChapterManager.SetAnnotationRequest | streamup-record-chapter-manager.cpp:168-213 | the annotation is written with the raw source before validation; the response is decided by recording state, then text emptiness |
| ChapterManager.AddDefaultChapterMarkerHotkey | streamup-record-chapter-manager.cpp:260-279 | a release does nothing; not recording: only the banner; otherwise the state is `MarkerAddedTo` the old state for the default name with the current count and the hotkey source, and the count then rises by one |
| ChapterManager.AddChapterMarkerHotkey | streamup-record-chapter-manager.cpp:281-305 | a release does nothing; not recording: only the banner; a chapter is found exactly when some name has this id, and the name returned has it; an id no chapter has, or an empty name, adds nothing; otherwise the state is `MarkerAddedTo` the old state for that chapter and the preset-hotkey source |
| ChapterManager.HotkeyPersistence.Load | streamup-record-chapter-manager.cpp:242-257 | preset hotkeys and names are loaded on the first call only; later calls leave them as they are |

## Left out

- Qt widgets, layouts, dialogs, label elision, theme properties, the message box (only its appearance is logged), and the five-second timer that clears the banners.
- `getCurrentRecordingTime`: its frame arithmetic and time formatting. The formatted timestamp is an input.
- Loading and saving settings (`LoadSettings`, `SaveSettings`, `SaveLoadSettingsCallback`). The constructor takes the loaded settings and ignored scenes as parameters.
- The save half of the hotkey save/load callback, and `SaveChapterHotkeys`. These serialise host data.
- The default hotkey's bindings load. It is a host call with no effect on the modelled state.
- The `obs_hotkey_*`, proc-handler, WebSocket vendor and `os_dlopen` calls. Their results are inputs and the calls are logged.
- `QFileInfo` splitting of the recording path. The directory and complete base name are inputs, and a missing output, missing settings or an empty path are `None`.
- Real file contents. A file is the sequence of chunks written to it, so the header written by truncation replaces the old chunks.
- Qt signal delivery. The WebSocket requests call the dock directly instead of through a possibly queued signal.
- Concurrency between the WebSocket thread and the UI thread.
- A missing dock (null pointer) and the "ChapterMarkerNotOpen" responses that go with it. The dock always exists in this model.
- The order in which the host runs the dock's own stop callback and the manager's stop event handler. They are two separate methods.
- MarkerDock.ChapterMarkerDock.chapterCount: an unbounded natural number, not a 32-bit `int`, so wrap-around after 2^31 markers is not modelled.
- ChapterManager.FindHotkeyName: when several names share an id, the model returns one of them rather than the first in `QMap` key order.
- MarkerDock.ChapterMarkerDock.currentChapterName: the source's file-scope global is a field of the dock here.
- MarkerDock.ChapterMarkerDock.constructor: the warning flag starts false. The source never initialises it.
- The class header `chapter-marker-dock.hpp` is stale, so this model takes the state from the implementation file.
- annotation-dock.cpp is not part of this model. It only enables widgets and forwards to `writeAnnotationToFiles`.
- constants.hpp is not part of this model. The dock hard-codes its own suffixes.
