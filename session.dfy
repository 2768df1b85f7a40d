/** The recording session (index.ts:59-151): a cursor over the script's
    blocks driven by the operator's choices, and for each block a take loop
    that records, asks for feedback, and keeps, retakes or cancels the take.

    The operator is a finite sequence of choices, each prompt consuming the
    next one; when it runs out the session ends where it stands. `Take` and
    `Run` are the session as functions of those choices; `RunSession` is the
    loop that drives a `Backend`, proved to do exactly what they say. */
module Session {
  import opened Wrappers
  import opened Naming
  import opened Script
  import opened Tagging
  import opened Obs
  import opened Recorder
  import opened Actions

  /** What a session is started with: where takes go, which script, its
      title, and the environment's copyright and author. */
  datatype Config = Config(
    recordLocation: string,
    scriptFile: string,
    scriptTitle: string,
    copyright: Option<string>,
    author: Option<string>)

  /** A request to the external tagger: tag `filePath` with `metadata`. The
      path is the backend's reply, absent when it had no file to report. */
  datatype TagRequest = TagRequest(filePath: Option<string>, metadata: Metadata)

  datatype TakeOutcome = Accepted | Abandoned | NoFeedback

  datatype TakeEnd = TakeEnd(outcome: TakeOutcome, backend: BackendState, tags: seq<TagRequest>, rest: seq<Action>)

  datatype Outcome =
    | Finished               // the cursor went past the last block
    | UndefinedLine(index: int) // `line.raw` read on a cursor before the first block: a TypeError
    | InputExhausted(index: int) // the operator stopped answering at this block
    | EmptyDocument          // reading the first token's type of an empty script: a TypeError

  datatype SessionEnd = SessionEnd(outcome: Outcome, backend: BackendState, tags: seq<TagRequest>)

  function TakeFolder(cfg: Config): string {
    RecordFolder(cfg.recordLocation, cfg.scriptFile)
  }

  /** The file a take of block `index` is recorded to. */
  function TakeFile(cfg: Config, index: nat): string {
    OutputPath(TakeFolder(cfg), Stem(cfg.scriptFile, index))
  }

  /** The tag request for a kept take of block `index`. */
  function TagFor(cfg: Config, lines: seq<Token>, index: nat): TagRequest
    requires index < |lines|
  {
    TagRequest(Some(TakeFile(cfg, index)),
            TakeMetadata(cfg.scriptTitle, index, |lines|, lines[index].text, cfg.copyright, cfg.author))
  }

  /** The start of every take (index.ts:108-112): set the folder, set the
      file name format, stop whatever is recording, start. */
  function BeginTake(cfg: Config, index: nat, b: BackendState): BackendState {
    var b1 := SetFolder(b, TakeFolder(cfg));
    var b2 := SetFormat(b1, Stem(cfg.scriptFile, index));
    var b3 := StopIfRecording(b2).state;
    Start(b3)
  }

  /** The commands of a take's start go out in the source's order, the
      defensive stop only when something was recording, and the backend ends
      up recording into this block's file, StartRecording never being sent
      while a recording is active. */
  lemma BeginTakeSpec(cfg: Config, index: nat, b: BackendState)
    ensures var r := BeginTake(cfg, index, b);
      && r.log == b.log + [SetRecordingFolder(TakeFolder(cfg)), SetFilenameFormatting(Stem(cfg.scriptFile, index)),
                           GetRecordingStatus] + (if b.isRecording then [StopRecording] else []) + [StartRecording]
      && r.isRecording && r.recordingFilename == TakeFile(cfg, index)
      && r.folder == TakeFolder(cfg) && r.filenameFormat == Stem(cfg.scriptFile, index)
  {
  }

  /** Cancelling a take: switch the format to the sentinel, then stop. */
  function CancelTake(b: BackendState): (r: BackendState)
    ensures !r.isRecording && r.filenameFormat == SkipFormat
    ensures r.log == b.log + [SetFilenameFormatting(SkipFormat), GetRecordingStatus]
                           + (if b.isRecording then [StopRecording] else [])
  {
    StopIfRecording(SetFormat(b, SkipFormat)).state
  }

  /** The take loop for block `index` (index.ts:106-149). */
  function Take(cfg: Config, lines: seq<Token>, index: nat, b: BackendState, tags: seq<TagRequest>,
                input: seq<Action>): (r: TakeEnd)
    requires index < |lines|
    ensures |r.rest| <= |input|
    ensures |tags| <= |r.tags| <= |tags| + 1 && r.tags[..|tags|] == tags
    decreases |input|
  {
    var b1 := BeginTake(cfg, index, b);
    if input == [] then TakeEnd(NoFeedback, b1, tags, [])
    else
      var rest := input[1..];
      match input[0]
      case Good =>
        var path := FilePathQuery(b1);
        var stopped := StopIfRecording(path.state);
        TakeEnd(Accepted, stopped.state,
                tags + [TagRequest(path.filename,
                                TakeMetadata(cfg.scriptTitle, index, |lines|, lines[index].text, cfg.copyright, cfg.author))],
                rest)
      case Retake => Take(cfg, lines, index, StopIfRecording(b1).state, tags, rest)
      case Skip => TakeEnd(Abandoned, CancelTake(b1), tags, rest)
      case _ => Take(cfg, lines, index, b1, tags, rest)
  }

  /** The outer loop from cursor `index` on (index.ts:76-151). Each choice
      adjusts the cursor as the source does before the loop's own `index++`:
      Back by -2, Reload by -1, a cancelled take by -1. */
  function Run(cfg: Config, lines: seq<Token>, index: int, b: BackendState, tags: seq<TagRequest>,
               input: seq<Action>): (r: SessionEnd)
    ensures |tags| <= |r.tags| && r.tags[..|tags|] == tags
    ensures r.outcome != EmptyDocument
    ensures r.outcome.UndefinedLine? ==> r.outcome.index < 0
    ensures r.outcome.InputExhausted? ==> 0 <= r.outcome.index < |lines|
    decreases |input|
  {
    if index >= |lines| then SessionEnd(Finished, b, tags)
    else if index < 0 then SessionEnd(UndefinedLine(index), b, tags)
    else if input == [] then SessionEnd(InputExhausted(index), b, tags)
    else
      var rest := input[1..];
      match input[0]
      case Previous => Run(cfg, lines, index - 2 + 1, b, tags, rest)
      case Reload => Run(cfg, lines, index - 1 + 1, b, tags, rest)
      case Record =>
        var t := Take(cfg, lines, index, b, tags, rest);
        (match t.outcome
         case Accepted => Run(cfg, lines, index + 1, t.backend, t.tags, t.rest)
         case Abandoned => Run(cfg, lines, index - 1 + 1, t.backend, t.tags, t.rest)
         case NoFeedback => SessionEnd(InputExhausted(index), t.backend, t.tags))
      case _ => Run(cfg, lines, index + 1, b, tags, rest)
  }

  /** The whole program after the script is chosen: the record location
      from the environment or its default, the title from the first token,
      the blocks, and the loop from the first block. Only an empty script
      fails before the loop, and then nothing is sent and nothing tagged. */
  function Teleprompter(recordLocationEnv: Option<string>, scriptFile: string, tokens: seq<Token>,
                        copyright: Option<string>, author: Option<string>,
                        b: BackendState, input: seq<Action>): (r: SessionEnd)
    ensures r.outcome == EmptyDocument <==> tokens == []
    ensures tokens == [] ==> r.backend == b && r.tags == []
  {
    match Title(tokens, scriptFile)
    case None => SessionEnd(EmptyDocument, b, [])
    case Some(title) =>
      var recordLocation := OrDefault(recordLocationEnv, DefaultRecordLocation);
      Run(Config(recordLocation, scriptFile, title, copyright, author), Blocks(tokens), 0, b, [], input)
  }

  /** One take's start (index.ts:108-112): folder, file name format,
      defensive stop, start. */
  method StartTake(obs: Backend, cfg: Config, index: nat)
    modifies obs
    ensures obs.State() == BeginTake(cfg, index, old(obs.State()))
  {
    var filename := Stem(cfg.scriptFile, index);
    SetFileLocation(obs, RecordFolder(cfg.recordLocation, cfg.scriptFile));
    SetFilename(obs, filename);
    var _ := StopRecordingIfActive(obs);
    var started, _ := BeginRecording(obs);
  }

  /** Keeping a take (index.ts:122-136): read the file while it is still
      recording, stop, and request the tags for that file. */
  method KeepTake(obs: Backend, cfg: Config, index: nat, count: nat, text: string, tags0: seq<TagRequest>)
    returns (tags: seq<TagRequest>)
    modifies obs
    ensures var path := FilePathQuery(old(obs.State()));
      && obs.State() == StopIfRecording(path.state).state
      && tags == tags0 + [TagRequest(path.filename,
                                     TakeMetadata(cfg.scriptTitle, index, count, text, cfg.copyright, cfg.author))]
  {
    var filePath := GetRecordingFilePath(obs);
    var _ := StopRecordingIfActive(obs);
    tags := tags0 + [TagRequest(filePath, TakeMetadata(cfg.scriptTitle, index, count, text, cfg.copyright, cfg.author))];
  }

  /** The take loop for block `index`, reading the operator's feedback from
      `input[k..]`; it returns how far it read. */
  method TakeLoop(obs: Backend, cfg: Config, lines: seq<Token>, index: nat, tags0: seq<TagRequest>,
                  input: seq<Action>, k0: nat)
    returns (outcome: TakeOutcome, tags: seq<TagRequest>, k: nat)
    requires index < |lines| && k0 <= |input|
    modifies obs
    ensures k <= |input|
    ensures TakeEnd(outcome, obs.State(), tags, input[k..]) == Take(cfg, lines, index, old(obs.State()), tags0, input[k0..])
  {
    ghost var t := Take(cfg, lines, index, obs.State(), tags0, input[k0..]);
    var line := lines[index];
    tags, k := tags0, k0;
    while true
      invariant k <= |input|
      invariant Take(cfg, lines, index, obs.State(), tags, input[k..]) == t
      decreases |input| - k
    {
      ghost var before, rest := obs.State(), input[k..];
      StartTake(obs, cfg, index);
      ghost var recording := obs.State();
      if k == |input| {
        outcome := NoFeedback;
        return;
      }
      var takeFeedback := input[k];
      k := k + 1;
      assert rest[1..] == input[k..];
      if takeFeedback == Good {
        ghost var tagged := tags;
        tags := KeepTake(obs, cfg, index, |lines|, line.text, tags);
        outcome := Accepted;
        assert TakeEnd(outcome, obs.State(), tags, input[k..]) == Take(cfg, lines, index, before, tagged, rest);
        return;
      }
      if takeFeedback == Retake {
        var _ := StopRecordingIfActive(obs);
        assert obs.State() == StopIfRecording(recording).state;
        assert Take(cfg, lines, index, before, tags, rest) == Take(cfg, lines, index, obs.State(), tags, input[k..]);
        continue;
      }
      if takeFeedback == Skip {
        SetFilename(obs, SkipFormat);
        var _ := StopRecordingIfActive(obs);
        assert obs.State() == CancelTake(recording);
        outcome := Abandoned;
        assert TakeEnd(outcome, obs.State(), tags, input[k..]) == Take(cfg, lines, index, before, tags, rest);
        return;
      }
      assert Take(cfg, lines, index, before, tags, rest) == Take(cfg, lines, index, recording, tags, input[k..]);
    }
  }

  /** The cursor loop (index.ts:76-151) over `lines`, driving `obs`. */
  method CursorLoop(obs: Backend, cfg: Config, lines: seq<Token>, input: seq<Action>)
    returns (outcome: Outcome, tags: seq<TagRequest>)
    modifies obs
    ensures SessionEnd(outcome, obs.State(), tags) == Run(cfg, lines, 0, old(obs.State()), [], input)
  {
    tags := [];
    ghost var goal := Run(cfg, lines, 0, obs.State(), [], input);
    var index: int := 0;
    var k: nat := 0;  // how many choices the operator has made
    while index < |lines|
      invariant k <= |input|
      invariant Run(cfg, lines, index, obs.State(), tags, input[k..]) == goal
      decreases |input| - k
    {
      if index < 0 {
        outcome := UndefinedLine(index);
        return;
      }
      if k == |input| {
        outcome := InputExhausted(index);
        return;
      }
      ghost var before, rest := obs.State(), input[k..];
      var textToRecord := input[k];
      k := k + 1;
      assert rest[1..] == input[k..];
      if textToRecord == Previous {
        assert Run(cfg, lines, index - 1, before, tags, input[k..]) == goal;
        index := index - 2;
      } else if textToRecord == Reload {
        assert Run(cfg, lines, index, before, tags, input[k..]) == goal;
        index := index - 1;
      } else if textToRecord == Record {
        var took;
        ghost var taken := Take(cfg, lines, index, before, tags, input[k..]);
        ghost var cursor := index;
        took, tags, k := TakeLoop(obs, cfg, lines, index, tags, input, k);
        assert taken == TakeEnd(took, obs.State(), tags, input[k..]);
        if took == NoFeedback {
          outcome := InputExhausted(index);
          return;
        }
        if took == Abandoned {
          assert Run(cfg, lines, cursor, obs.State(), tags, input[k..]) == goal;
          index := index - 1;
        } else {
          assert Run(cfg, lines, cursor + 1, obs.State(), tags, input[k..]) == goal;
        }
      } else {
        assert Run(cfg, lines, index + 1, before, tags, input[k..]) == goal;
      }
      index := index + 1;
    }
    outcome := Finished;
  }

  /** The program once the script is chosen (index.ts:71-151): title,
      blocks, then the cursor loop. */
  method RunSession(obs: Backend, recordLocationEnv: Option<string>, scriptFile: string, tokens: seq<Token>,
                    copyright: Option<string>, author: Option<string>, input: seq<Action>)
    returns (outcome: Outcome, tags: seq<TagRequest>)
    modifies obs
    ensures SessionEnd(outcome, obs.State(), tags)
         == Teleprompter(recordLocationEnv, scriptFile, tokens, copyright, author, old(obs.State()), input)
  {
    var scriptTitle := Title(tokens, scriptFile);
    if scriptTitle.None? {
      outcome, tags := EmptyDocument, [];
      return;
    }
    var recordLocation := OrDefault(recordLocationEnv, DefaultRecordLocation);
    var cfg := Config(recordLocation, scriptFile, scriptTitle.value, copyright, author);
    outcome, tags := CursorLoop(obs, cfg, Blocks(tokens), input);
  }
}
