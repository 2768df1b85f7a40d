/** The teleprompter's own backend helpers (index.ts:50-57, 171-200):
    the defensive stop, the start, the two setters and the file path
    query. `StopIfRecording` and `FilePathQuery` say what the helpers do to
    the backend's state; the methods do it to a `Backend`. */
module Recorder {
  import opened Wrappers
  import opened Obs

  /** A backend state together with the file name a helper returns, absent
      where the backend's reply leaves it out. */
  datatype Reply = Reply(state: BackendState, filename: Option<string>)

  /** `stopRecording`: ask for the status, and send StopRecording only when
      a recording is active. Afterwards nothing is recording; exactly one
      StopRecording was sent if a recording was active and none otherwise;
      the name returned is the file of the recording that was stopped, and
      absent when nothing was recording (the status then has no file name
      and `as string` checks nothing); folder and format are kept. */
  function StopIfRecording(b: BackendState): (r: Reply)
    ensures !r.state.isRecording
    ensures r.state.log == b.log + [GetRecordingStatus] + (if b.isRecording then [StopRecording] else [])
    ensures r.filename == (if b.isRecording then Some(b.recordingFilename) else None)
    ensures r.state.recordingFilename == b.recordingFilename
    ensures r.state.folder == b.folder && r.state.filenameFormat == b.filenameFormat
  {
    var b1 := Sent(b, GetRecordingStatus);
    var status := StatusOf(b);
    if status.isRecording then Reply(Stop(b1), Some(b1.recordingFilename)) else Reply(b1, status.recordingFilename)
  }

  /** Stopping twice in a row sends one StopRecording at most: the second
      call only asks for the status, and gets no file name. */
  lemma StopIfRecordingIdempotent(b: BackendState)
    ensures var once := StopIfRecording(b);
      StopIfRecording(once.state) == Reply(Sent(once.state, GetRecordingStatus), None)
  {
  }

  /** `getRecordingFilePath`: the file the backend reports, read with a
      status request and without changing anything else. It is present
      exactly while a recording is active: `!!` checks nothing at run time. */
  function FilePathQuery(b: BackendState): (r: Reply)
    ensures r.state == Sent(b, GetRecordingStatus)
    ensures r.filename.Some? <==> b.isRecording
    ensures b.isRecording ==> r.filename == Some(b.recordingFilename)
  {
    Reply(Sent(b, GetRecordingStatus), StatusOf(b).recordingFilename)
  }

  method StopRecordingIfActive(obs: Backend) returns (filename: Option<string>)
    modifies obs
    ensures Reply(obs.State(), filename) == StopIfRecording(old(obs.State()))
  {
    var status := obs.GetRecordingStatus();
    if status.isRecording {
      var stopped, stoppedFile := obs.StopRecording();
      filename := Some(stoppedFile);
    } else {
      filename := status.recordingFilename;
    }
  }

  /** `startRecording`, without its settling delay. When the backend
      refuses the request, the rejection escapes the promise's executor
      unhandled and the promise never settles; here `started` is false. */
  method BeginRecording(obs: Backend) returns (started: bool, filename: string)
    modifies obs
    ensures started == !old(obs.isRecording)
    ensures started ==> obs.State() == Start(old(obs.State())) && filename == obs.recordingFilename
    ensures !started ==> obs.State() == Sent(old(obs.State()), StartRecording)
  {
    started, filename := obs.StartRecording();
  }

  method SetFilename(obs: Backend, filename: string)
    modifies obs
    ensures obs.State() == SetFormat(old(obs.State()), filename)
  {
    obs.SetFilenameFormatting(filename);
  }

  method SetFileLocation(obs: Backend, fileLocation: string)
    modifies obs
    ensures obs.State() == SetFolder(old(obs.State()), fileLocation)
  {
    obs.SetRecordingFolder(fileLocation);
  }

  method GetRecordingFilePath(obs: Backend) returns (filePath: Option<string>)
    modifies obs
    ensures Reply(obs.State(), filePath) == FilePathQuery(old(obs.State()))
  {
    var status := obs.GetRecordingStatus();
    filePath := status.recordingFilename;
  }
}
