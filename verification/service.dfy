/** `ActionTrackingService` of the current version: at most one active tracker per
    project; stopping it exports the transcript and names the file it is saved to. */
module Service {
  import opened Optional
  import opened Strings
  import opened Events
  import opened Tracker

  datatype ServiceState = ServiceState(activeTracker: Option<TrackerState>)

  /** `startTracking`: a fresh tracker becomes the active one. */
  function StartTracking(svc: ServiceState, now: int): (r: ServiceState)
    ensures r.activeTracker.Some?
    ensures var t := r.activeTracker.value;
      t.records == [] && t.inputEvents == {} && t.contexts == map[] && t.startTime == now
  {
    ServiceState(Some(NewTracker(now)))
  }

  /** A saved transcript and the name of the file in the user's home directory. */
  datatype SavedLog = SavedLog(fileName: string, text: string)

  const FileInfix: string := "_action_tracker_"
  const FileSuffix: string := ".txt"

  /** The start time as it appears in the file name: `.`, `,`, `:` and blanks become `_`. */
  function FileStamp(startText: string): (stamp: string)
    ensures |stamp| == |startText|
    ensures forall i :: 0 <= i < |startText| ==>
      stamp[i] == (if startText[i] in {'.', ',', ':', ' '} then '_' else startText[i])
    ensures '.' !in stamp && ',' !in stamp && ':' !in stamp && ' ' !in stamp
  {
    ReplaceChars(startText, {'.', ',', ':', ' '}, '_')
  }

  /** The file name: the product name with blanks made `_`, the infix, the start
      time with `.`, `,`, `:` and blanks made `_`, and the `.txt` extension. */
  function LogFileName(productName: string, startText: string): (name: string)
    ensures |name| == |productName| + |FileInfix| + |startText| + |FileSuffix|
    ensures ' ' !in name
    ensures forall i :: 0 <= i < |productName| ==>
      name[i] == (if productName[i] == ' ' then '_' else productName[i])
    ensures name[|productName|..|productName| + |FileInfix|] == FileInfix
    ensures forall i :: 0 <= i < |startText| ==>
      name[|productName| + |FileInfix| + i] == FileStamp(startText)[i]
    ensures name[|name| - |FileSuffix|..] == FileSuffix
    ensures name[|productName| + |FileInfix|..|name| - |FileSuffix|] == FileStamp(startText)
  {
    var prefix := ReplaceChars(productName, {' '}, '_');
    var stamp := FileStamp(startText);
    var name := prefix + FileInfix + stamp + FileSuffix;
    assert ' ' !in prefix by { assert '_' !in {' '}; }
    assert ' ' !in FileInfix + FileSuffix;
    ConcatOfFour(prefix, FileInfix, stamp, FileSuffix);
    name
  }

  /** `stopTracking`: with no active tracker nothing happens; otherwise the tracker
      is exported and dropped. */
  function StopTracking(svc: ServiceState, productName: string, fmt: Formats): (r: (ServiceState, Option<SavedLog>))
    ensures r.0.activeTracker.None?
    ensures svc.activeTracker.None? <==> r.1.None?
    ensures svc.activeTracker.None? ==> r.0 == svc
    ensures svc.activeTracker.Some? ==>
      && r.1.value.text == ExportRecords(svc.activeTracker.value, fmt)
      && r.1.value.fileName == LogFileName(productName, StartTrackingTime(svc.activeTracker.value, fmt))
  {
    match svc.activeTracker
    case None => (svc, None)
    case Some(tracker) =>
      var records := ExportRecords(tracker, fmt);
      (ServiceState(None), Some(SavedLog(LogFileName(productName, StartTrackingTime(tracker, fmt)), records)))
  }

  /** Stopping twice saves once; stopping right after starting saves only the header line. */
  lemma StopIsOneShot(svc: ServiceState, now: int, productName: string, fmt: Formats)
    ensures StopTracking(StopTracking(svc, productName, fmt).0, productName, fmt).1.None?
    ensures StopTracking(StartTracking(svc, now), productName, fmt).1.value.text
      == "Tracking started: " + fmt.startText(now) + "."
  {
  }
}
