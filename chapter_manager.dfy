/**
 * The plugin-level handlers around the dock: the recording start and stop
 * front-end events, the three WebSocket vendor requests, the two hotkey
 * callbacks, and the one-time load of the saved hotkeys and presets.
 */
module ChapterManager {
  import opened Wrappers
  import opened Strings
  import opened ChapterFormat
  import opened MarkerDock

  /** The `success` and `message` fields of a set-request response. */
  datatype SetResponse = SetResponse(success: bool, message: Msg)

  /** The `chapterName` and `success` fields of a get-request response. */
  datatype GetResponse = GetResponse(chapterName: string, success: bool)

  /**
   * The response to `setAnnotation`: it looks only at whether recording is
   * active and whether the text is empty, not at what was written.
   */
  function AnnotationResponse(recordingActive: bool, text: string): SetResponse
  {
    if !recordingActive then SetResponse(false, AnnotationRecordingNotActive)
    else if text == "" then SetResponse(false, AnnotationErrorTextIsEmpty)
    else SetResponse(true, AnnotationAdded)
  }

  /**
   * A successful `setAnnotation` response means the write got past its
   * recording and empty-text checks, and every saved annotation is reported
   * as a success; but with file export off the request is reported as a
   * success although nothing was written.
   */
  lemma AnnotationResponseAgainstWrite(s: Settings, labels: Labels, host: Host, sc: Sidecars,
                                       text: string, timestamp: string, source: string)
    ensures var w := AnnotationWrite(s, labels, host, sc, text, timestamp, source);
            var r := AnnotationResponse(host.recordingActive, text);
            && (r.success ==> w.outcome != NotRecording && w.outcome != EmptyText)
            && (w.outcome == Saved ==> r.success)
            && (r.success && !s.exportChaptersToFileEnabled ==> w.outcome == NoExport && w.sidecars == sc)
  {
  }

  /**
   * The reverse lookup of the preset hotkey callback: the chapter whose
   * hotkey has this id, if there is one.
   */
  method FindHotkeyName(hotkeys: map<string, HotkeyId>, id: HotkeyId) returns (found: Option<string>)
    ensures found.Some? ==> found.value in hotkeys && hotkeys[found.value] == id
    ensures found.None? <==> forall k :: k in hotkeys ==> hotkeys[k] != id
  {
    var keys := hotkeys.Keys;
    while keys != {}
      invariant keys <= hotkeys.Keys
      invariant forall k :: k in hotkeys && k !in keys ==> hotkeys[k] != id
      decreases |keys|
    {
      var k :| k in keys;
      if hotkeys[k] == id {
        return Some(k);
      }
      keys := keys - {k};
    }
    return None;
  }

  /**
   * The start handler proper: with no export method on only the banner
   * changes; otherwise the sidecars are created and the "Start" marker is
   * added. The counter is not reset here.
   */
  method OnStartRecording(dock: ChapterMarkerDock, host: Host)
    requires dock.Valid()
    modifies dock`hostCalls, dock`incompatibleFileTypeMessageShown, dock`files, dock`exportTextFilePath,
             dock`exportXMLFilePath, dock`currentChapterLabel, dock`feedback, dock`currentChapterName,
             dock`history, dock`chapters, dock`timestamps, dock`events, dock`isFirstRunInRecording
    ensures dock.Valid()
    ensures !dock.settings.HasExportMethod() ==>
              dock.Snapshot() == old(dock.Snapshot()) && dock.feedback == Some(Feedback(NoExportMethod, true))
    ensures dock.settings.HasExportMethod() ==>
              dock.MarkerAddedTo(old(dock.Base()).(sidecars := AfterCreateExportFiles(dock.settings, host, old(dock.CurrentSidecars()))),
                                 dock.labels.start, dock.labels.recording, host)
  {
    if !dock.settings.exportChaptersToFileEnabled && !dock.settings.insertChapterMarkersInVideoEnabled {
      dock.ShowFeedbackMessage(NoExportMethod, true);
      return;
    }
    AddStartMarker(dock, host);
  }

  /** The sidecars of the new recording are created, then the "Start" marker is added. */
  method AddStartMarker(dock: ChapterMarkerDock, host: Host)
    requires dock.Valid()
    modifies dock`hostCalls, dock`incompatibleFileTypeMessageShown, dock`files, dock`exportTextFilePath,
             dock`exportXMLFilePath, dock`currentChapterLabel, dock`feedback, dock`currentChapterName,
             dock`history, dock`chapters, dock`timestamps, dock`events, dock`isFirstRunInRecording
    ensures dock.Valid()
    ensures dock.MarkerAddedTo(old(dock.Base()).(sidecars := AfterCreateExportFiles(dock.settings, host, old(dock.CurrentSidecars()))),
                               dock.labels.start, dock.labels.recording, host)
  {
    dock.CreateExportFiles(host);
    assert dock.Base() == old(dock.Base()).(sidecars := dock.CurrentSidecars());
    dock.AddChapterMarker(dock.labels.start, dock.labels.recording, host);
  }

  /**
   * The recording-started event: the first-marker flag is raised and the
   * label set to "Start" before the start handler runs, so the "Start"
   * marker is never offered to the recording. The counter is not reset.
   */
  method OnRecordingStartedEvent(dock: ChapterMarkerDock, host: Host)
    requires dock.Valid()
    modifies dock`hostCalls, dock`incompatibleFileTypeMessageShown, dock`files, dock`exportTextFilePath,
             dock`exportXMLFilePath, dock`currentChapterLabel, dock`feedback, dock`currentChapterName,
             dock`history, dock`chapters, dock`timestamps, dock`events, dock`isFirstRunInRecording
    ensures dock.Valid()
    ensures !dock.settings.HasExportMethod() ==>
              && dock.Snapshot() == old(dock.Snapshot()).(isFirstRunInRecording := true)
              && dock.feedback == Some(Feedback(NoExportMethod, true))
    ensures dock.settings.HasExportMethod() ==>
              && dock.MarkerAddedTo(old(dock.Base()).(isFirstRunInRecording := true, currentChapterLabel := dock.labels.start,
                                                      sidecars := AfterCreateExportFiles(dock.settings, host, old(dock.CurrentSidecars()))),
                                    dock.labels.start, dock.labels.recording, host)
              && dock.hostCalls == old(dock.hostCalls)
              && dock.incompatibleFileTypeMessageShown == old(dock.incompatibleFileTypeMessageShown)
  {
    RaiseFirstRunFlag(dock);
    OnStartRecording(dock, host);
  }

  /** The first half of the recording-started event: the first-marker flag goes up and the label reads "Start". */
  method RaiseFirstRunFlag(dock: ChapterMarkerDock)
    modifies dock`isFirstRunInRecording, dock`currentChapterLabel, dock`feedback
    ensures dock.settings.HasExportMethod() ==>
              && dock.Base() == old(dock.Base()).(isFirstRunInRecording := true, currentChapterLabel := dock.labels.start)
              && dock.feedback == old(dock.feedback)
    ensures !dock.settings.HasExportMethod() ==>
              && dock.Snapshot() == old(dock.Snapshot()).(isFirstRunInRecording := true)
              && dock.feedback == Some(Feedback(NoExportMethod, true))
  {
    dock.isFirstRunInRecording := true;
    dock.UpdateCurrentChapterLabel(dock.labels.start);
  }

  /** Recording stopped, as the front-end event sees it: the banner ends on "recording finished". */
  method OnRecordingStoppedEvent(dock: ChapterMarkerDock)
    modifies dock`feedback
    ensures dock.feedback == Some(Feedback(RecordingFinished, false))
  {
    dock.ShowFeedbackMessage(ChapterMarkerNotActive, true);
    dock.ShowFeedbackMessage(RecordingFinished, false);
  }

  /**
   * The `setChapterMarker` request: refused while not recording; otherwise an
   * empty name becomes the counted default name and an empty source
   * "WebSocket", and the marker is added whether or not an export method is on.
   */
  method SetChapterMarkerRequest(dock: ChapterMarkerDock, chapterName: string, chapterSource: string, host: Host)
    returns (response: SetResponse)
    requires dock.Valid()
    modifies dock`hostCalls, dock`incompatibleFileTypeMessageShown, dock`files, dock`exportTextFilePath,
             dock`exportXMLFilePath, dock`currentChapterLabel, dock`feedback, dock`currentChapterName,
             dock`history, dock`chapters, dock`timestamps, dock`events, dock`isFirstRunInRecording,
             dock`chapterCount
    ensures dock.Valid()
    ensures response.success <==> host.recordingActive
    ensures !host.recordingActive ==>
              && response == SetResponse(false, ChapterMarkerNotActive)
              && dock.Snapshot() == old(dock.Snapshot()) && dock.feedback == old(dock.feedback)
    ensures host.recordingActive ==>
              var named := ManualChapterName(chapterName, dock.settings.defaultChapterName, old(dock.chapterCount), true);
              var source := if chapterSource == "" then dock.labels.webSocket else chapterSource;
              && response == SetResponse(true, ChapterMarkerAdded)
              && dock.chapterCount == named.1
              && dock.MarkerAddedTo(old(dock.Base()), named.0, source, host)
  {
    if !host.recordingActive {
      return SetResponse(false, ChapterMarkerNotActive);
    }
    var name := chapterName;
    var source := chapterSource;
    if name == "" {
      name := DefaultChapterName(dock.settings.defaultChapterName, dock.chapterCount);
      dock.chapterCount := dock.chapterCount + 1;
    }
    if source == "" {
      source := dock.labels.webSocket;
    }
    dock.AddChapterMarker(name, source, host);
    response := SetResponse(true, ChapterMarkerAdded);
  }

  /**
   * The `getCurrentChapterMarker` request: the current name when there is
   * one; otherwise a failure whose text depends on whether the host has a
   * recording output.
   */
  method GetCurrentChapterMarkerRequest(currentChapterName: string, hasRecordingOutput: bool, labels: Labels)
    returns (response: GetResponse)
    ensures response.success <==> currentChapterName != ""
    ensures response.success ==> response.chapterName == currentChapterName
    ensures !response.success && hasRecordingOutput ==> response.chapterName == labels.recordingNotActive
    ensures !response.success && !hasRecordingOutput ==> response.chapterName == labels.errorGettingChapterName
  {
    if currentChapterName != "" {
      response := GetResponse(currentChapterName, true);
    } else if hasRecordingOutput {
      response := GetResponse(labels.recordingNotActive, false);
    } else {
      response := GetResponse(labels.errorGettingChapterName, false);
    }
  }

  /**
   * The `setAnnotation` request: the annotation is handed to the dock first,
   * with the source as received, and the response is decided afterwards from
   * the recording state and the text alone.
   */
  method SetAnnotationRequest(dock: ChapterMarkerDock, annotationText: string, annotationSource: string, host: Host)
    returns (response: SetResponse)
    modifies dock`files, dock`exportTextFilePath, dock`exportXMLFilePath, dock`annotationFeedback, dock`events
    ensures var w := AnnotationWrite(dock.settings, dock.labels, host, old(dock.CurrentSidecars()),
                                     annotationText, host.timestamp, annotationSource);
            && dock.CurrentSidecars() == w.sidecars
            && dock.annotationFeedback == AnnotationFeedback(w.outcome, old(dock.annotationFeedback))
            && dock.events == old(dock.events)
                              + (if w.outcome == Saved then [AnnotationSet(annotationText, host.timestamp, annotationSource)] else [])
    ensures response == AnnotationResponse(host.recordingActive, annotationText)
  {
    dock.WriteAnnotationToFiles(annotationText, host.timestamp, annotationSource, host);
    if !host.recordingActive {
      return SetResponse(false, AnnotationRecordingNotActive);
    }
    if annotationText == "" {
      return SetResponse(false, AnnotationErrorTextIsEmpty);
    }
    response := SetResponse(true, AnnotationAdded);
  }

  /**
   * The default hotkey: on a press while recording, a marker named after the
   * counter is added and the counter then bumped; no export-method check.
   */
  method AddDefaultChapterMarkerHotkey(dock: ChapterMarkerDock, pressed: bool, host: Host)
    requires dock.Valid()
    modifies dock`hostCalls, dock`incompatibleFileTypeMessageShown, dock`files, dock`exportTextFilePath,
             dock`exportXMLFilePath, dock`currentChapterLabel, dock`feedback, dock`currentChapterName,
             dock`history, dock`chapters, dock`timestamps, dock`events, dock`isFirstRunInRecording,
             dock`chapterCount
    ensures dock.Valid()
    ensures !pressed ==> dock.Snapshot() == old(dock.Snapshot()) && dock.feedback == old(dock.feedback)
    ensures pressed && !host.recordingActive ==>
              dock.Snapshot() == old(dock.Snapshot()) && dock.feedback == Some(Feedback(ChapterMarkerNotActive, true))
    ensures pressed && host.recordingActive ==>
              var name := DefaultChapterName(dock.settings.defaultChapterName, old(dock.chapterCount));
              && dock.chapterCount == old(dock.chapterCount) + 1
              && dock.MarkerAddedTo(old(dock.Base()), name, dock.labels.hotkey, host)
  {
    if !pressed {
      return;
    }
    if !host.recordingActive {
      dock.ShowFeedbackMessage(ChapterMarkerNotActive, true);
      return;
    }
    var name := DefaultChapterName(dock.settings.defaultChapterName, dock.chapterCount);
    dock.AddChapterMarker(name, dock.labels.hotkey, host);
    ghost var added := dock.MarkerAddedTo(old(dock.Base()), name, dock.labels.hotkey, host);
    dock.chapterCount := dock.chapterCount + 1;
    assert added == dock.MarkerAddedTo(old(dock.Base()), name, dock.labels.hotkey, host);
  }

  /**
   * A preset hotkey: on a press while recording, the chapter registered
   * under this id is added; an id no chapter has, or a chapter with an
   * empty name, adds nothing. The chapter looked up is returned.
   */
  method AddChapterMarkerHotkey(dock: ChapterMarkerDock, id: HotkeyId, pressed: bool, host: Host)
    returns (chapterName: string)
    requires dock.Valid()
    modifies dock`hostCalls, dock`incompatibleFileTypeMessageShown, dock`files, dock`exportTextFilePath,
             dock`exportXMLFilePath, dock`currentChapterLabel, dock`feedback, dock`currentChapterName,
             dock`history, dock`chapters, dock`timestamps, dock`events, dock`isFirstRunInRecording
    ensures dock.Valid()
    ensures !pressed ==> dock.Snapshot() == old(dock.Snapshot()) && dock.feedback == old(dock.feedback)
    ensures pressed && !host.recordingActive ==>
              dock.Snapshot() == old(dock.Snapshot()) && dock.feedback == Some(Feedback(ChapterMarkerNotActive, true))
    ensures chapterName != "" ==> chapterName in dock.chapterHotkeys && dock.chapterHotkeys[chapterName] == id
    ensures pressed && host.recordingActive && chapterName == "" ==>
              dock.Snapshot() == old(dock.Snapshot()) && dock.feedback == old(dock.feedback)
    ensures pressed && host.recordingActive && (forall k :: k in dock.chapterHotkeys ==> dock.chapterHotkeys[k] != id) ==>
              chapterName == ""
    ensures pressed && host.recordingActive && (exists k :: k in dock.chapterHotkeys && dock.chapterHotkeys[k] == id) ==>
              chapterName in dock.chapterHotkeys && dock.chapterHotkeys[chapterName] == id
    ensures pressed && host.recordingActive && chapterName != "" ==>
              dock.MarkerAddedTo(old(dock.Base()), chapterName, dock.labels.presetHotkey, host)
  {
    chapterName := "";
    if !pressed {
      return;
    }
    if !host.recordingActive {
      dock.ShowFeedbackMessage(ChapterMarkerNotActive, true);
      return;
    }
    var found := FindHotkeyName(dock.chapterHotkeys, id);
    if found.Some? {
      chapterName := found.value;
    }
    if chapterName != "" {
      dock.AddChapterMarker(chapterName, dock.labels.presetHotkey, host);
    }
  }

  /**
   * The load half of the hotkey save/load callback: the saved preset hotkeys
   * and preset names are loaded on the first call only.
   */
  class HotkeyPersistence {
    var isFirstRun: bool

    constructor ()
      ensures isFirstRun
    {
      isFirstRun := true;
    }

    method Load(dock: ChapterMarkerDock, savedHotkeys: seq<SavedHotkey>, savedPresets: seq<string>)
      modifies this, dock`chapterHotkeys, dock`hostCalls, dock`presetChapters
      ensures !isFirstRun
      ensures old(isFirstRun) ==>
                && dock.chapterHotkeys == LoadedHotkeys(old(dock.chapterHotkeys), savedHotkeys)
                && dock.hostCalls == old(dock.hostCalls) + LoadRegistrations(savedHotkeys)
                && dock.presetChapters == old(dock.presetChapters) + savedPresets
      ensures !old(isFirstRun) ==>
                && dock.chapterHotkeys == old(dock.chapterHotkeys)
                && dock.hostCalls == old(dock.hostCalls)
                && dock.presetChapters == old(dock.presetChapters)
    {
      if isFirstRun {
        dock.LoadChapterHotkeys(savedHotkeys);
        dock.LoadPresetChapters(savedPresets);
        isFirstRun := false;
      }
    }
  }
}
