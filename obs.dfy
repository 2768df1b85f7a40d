/** The recording backend (OBS, reached over its WebSocket protocol) as far
    as the teleprompter uses it: five requests, the state they act on, and
    a log of every request sent. `BackendState` is the value of that state
    and the functions below are the requests' effects on it; `Backend` is
    the object the session talks to. */
module Obs {
  import opened Wrappers
  import opened Naming

  datatype Command =
    | GetRecordingStatus
    | SetRecordingFolder(folder: string)
    | SetFilenameFormatting(format: string)
    | StartRecording
    | StopRecording

  /** The reply to GetRecordingStatus. Its file name is an optional field of
      the protocol, present only while a recording is active. */
  datatype Status = Status(isRecording: bool, recordingFilename: Option<string>)

  datatype BackendState = BackendState(
    isRecording: bool,
    recordingFilename: string,  // the file of the current, or else the last, recording
    folder: string,
    filenameFormat: string,
    log: seq<Command>)           // every request received, oldest first

  /** The file a recording started with this folder and format is written
      to. */
  function OutputPath(folder: string, format: string): string {
    JoinPath(folder, format)
  }

  function Sent(b: BackendState, c: Command): BackendState {
    b.(log := b.log + [c])
  }

  function StatusOf(b: BackendState): (s: Status)
    ensures s.isRecording == b.isRecording
    ensures s.recordingFilename.Some? <==> b.isRecording
    ensures b.isRecording ==> s.recordingFilename == Some(b.recordingFilename)
  {
    Status(b.isRecording, if b.isRecording then Some(b.recordingFilename) else None)
  }

  function SetFolder(b: BackendState, folder: string): BackendState {
    Sent(b, SetRecordingFolder(folder)).(folder := folder)
  }

  function SetFormat(b: BackendState, format: string): BackendState {
    Sent(b, SetFilenameFormatting(format)).(filenameFormat := format)
  }

  /** StartRecording is honoured only when no recording is active. */
  function Start(b: BackendState): BackendState
    requires !b.isRecording
  {
    Sent(b, StartRecording).(isRecording := true, recordingFilename := OutputPath(b.folder, b.filenameFormat))
  }

  /** StopRecording is honoured only when a recording is active. */
  function Stop(b: BackendState): BackendState
    requires b.isRecording
  {
    Sent(b, StopRecording).(isRecording := false)
  }

  class Backend {
    var isRecording: bool
    var recordingFilename: string
    var folder: string
    var filenameFormat: string
    var log: seq<Command>

    function State(): BackendState
      reads this
    {
      BackendState(isRecording, recordingFilename, folder, filenameFormat, log)
    }

    /** A backend found in any state, a recording left running by an
        earlier session included. */
    constructor (initial: BackendState)
      ensures State() == initial
    {
      isRecording := initial.isRecording;
      recordingFilename := initial.recordingFilename;
      folder := initial.folder;
      filenameFormat := initial.filenameFormat;
      log := initial.log;
    }

    method GetRecordingStatus() returns (status: Status)
      modifies this
      ensures State() == Sent(old(State()), Command.GetRecordingStatus)
      ensures status == StatusOf(old(State()))
    {
      status := Status(isRecording, if isRecording then Some(recordingFilename) else None);
      log := log + [Command.GetRecordingStatus];
    }

    method SetRecordingFolder(path: string)
      modifies this
      ensures State() == SetFolder(old(State()), path)
    {
      folder := path;
      log := log + [Command.SetRecordingFolder(path)];
    }

    method SetFilenameFormatting(format: string)
      modifies this
      ensures State() == SetFormat(old(State()), format)
    {
      filenameFormat := format;
      log := log + [Command.SetFilenameFormatting(format)];
    }

    /** Starts recording to the file the current folder and format name and
        announces it (the RecordingStarted event); refused while a
        recording is active. */
    method StartRecording() returns (ok: bool, filename: string)
      modifies this
      ensures ok == !old(isRecording)
      ensures ok ==> State() == Start(old(State())) && filename == OutputPath(old(folder), old(filenameFormat))
      ensures !ok ==> State() == Sent(old(State()), Command.StartRecording)
    {
      ok := !isRecording;
      if ok {
        isRecording := true;
        recordingFilename := OutputPath(folder, filenameFormat);
      }
      filename := recordingFilename;
      log := log + [Command.StartRecording];
    }

    /** Stops the active recording and announces its file (the
        RecordingStopped event); refused when nothing is recording. */
    method StopRecording() returns (ok: bool, filename: string)
      modifies this
      ensures ok == old(isRecording)
      ensures ok ==> State() == Stop(old(State())) && filename == old(recordingFilename)
      ensures !ok ==> State() == Sent(old(State()), Command.StopRecording)
    {
      ok := isRecording;
      isRecording := false;
      filename := recordingFilename;
      log := log + [Command.StopRecording];
    }
  }
}
