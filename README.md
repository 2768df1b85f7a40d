# OBS teleprompter, modelled in Dafny

The teleprompter is a command-line program. It helps one person record a
video script one paragraph at a time with OBS Studio. It lists the Markdown
scripts in a folder and cuts the chosen script into blocks (the lexer's
tokens minus blank space and headings). It then walks a cursor over the
blocks. On each block the operator can:

- **Record:** OBS is pointed at a folder named after the script and a file
  named `<script>-<n>`. Any running recording is stopped and a new one starts.
  The operator then keeps the take (**Good**), records it again (**Retake**)
  or throws it away (**Cancel**).
- **Ignore:** skip the block.
- **Back:** return to the previous block.
- **Reload:** show the block again.

A kept take is stopped. Its file is then tagged through ffmpeg with the
title, position, text, album, copyright and author.

The project models all of this as follows:

- **Names:** the environment defaults, the take folder and stem, and the
  progression label (`naming.dfy`).
- **The script:** the token filter, the title and the script picker's
  filter (`script.dfy`).
- **Tagging:** the tag object and the ffmpeg argument vector (`tagging.dfy`).
- **The backend:**
  - OBS is modelled as a state: recording or not, the last file, the folder,
    the file name format, and a log of every request (`obs.dfy`).
  - The program's five helpers act on that state (`recorder.dfy`).
- **The operator's choices:** the `ACTIONS` labels (`actions.dfy`).
- **The session** (`session.dfy`):
  - `Take` and `Run` are functions of the operator's answers.
  - `TakeLoop`, `CursorLoop` and `RunSession` are the imperative loops that
    drive a `Backend` object. Each of them is proved to end in exactly the
    state and tag requests those functions give.
- **Session facts:** the properties of whole takes and whole sessions
  (`session_facts.dfy`).

The operator is a finite sequence of answers, and each prompt consumes the
next one. When the answers run out, the session ends where it stands
(`InputExhausted`). The session therefore always terminates, which the real
prompt loop need not do.

## Behaviour worth knowing

- **Back on the first block.**
  - What the code does: it moves the cursor to -1 without a guard. The next
    pass then reads `line.raw` of a missing block and throws.
  - How the model shows it: the session ends with `UndefinedLine(-1)`
    (`SessionFacts.BackReturnsToPrevious`,
    `SessionFacts.OnlyBlockMinusOneIsUndefined`).
- **Reading the recording path.**
  - What the code does: `getRecordingFilePath` asserts non-null with `!!`.
    This check exists only at compile time, so nothing fails at run time when
    no recording is active. The code has no "no active recording" error.
  - How the model shows it: the status carries the file name as an optional
    field, present only while recording. The path query returns that field as
    it is, absent when nothing records. An absent path would reach ffmpeg as the
    file `undefined`, tagged into `undefined-metadata.mp4`
    (`Tagging.AbsentPathArgs`). A kept take always reads it while its own
    recording is still running (`SessionFacts.KeepReadsPathBeforeStop`).
- **The cancel action.** Its identifier is `SKIP`, but its label reads
  "Cancel". The model calls the choice `Skip`.

An empty script makes reading the first token's type throw. The model gives
that case the outcome `EmptyDocument`.

## Model

| member | source | states |
|---|---|---|
| Naming.OrDefault | index.ts:14-15 | A set, non-empty variable is used as it is. An unset or empty one falls back to the default: the result is the fallback exactly when the variable is unset, empty or equal to it, and it is empty only when both are |
| Naming.JoinPath | index.ts:109 | The result is the directory and the name with exactly one separator between them: `dir + name` or `dir + "/" + name`, and always the latter when the directory is non-empty and does not end in `/` |
| Naming.JoinPathInjective | index.ts:109 | Two scripts never share a recording folder under the same location |
| Naming.StemInjective | index.ts:108 | The file name format `<script>-<index+1>` determines both the script and the block, so no two blocks or scripts share a stem |
| Naming.SkipIsNoStem | index.ts:144 | The cancel sentinel `skip` is never the stem of a block |
| Naming.StemExample | index.ts:108 | Blocks are numbered from one: the first block of `demo.md` is recorded as `demo.md-1` |
| Naming.ProgressionInjective | index.ts:84 | The label `<index+1>/<count>` determines both the position and the count |
| Naming.ProgressionExample | index.ts:84 | The first of two blocks is labelled `1/2` |
| Text.NatToStringShape | index.ts:84 | A number in a template literal is a non-empty run of decimal digits, with no leading zero unless it is 0 |
| Text.ParseNatToString | index.ts:84 | Reading back the decimal text of a number gives the number |
| Script.Blocks | index.ts:71 | No block is a space or heading token |
| Script.BlocksMembership | index.ts:71 | A token is a block exactly when it is in the document and is neither space nor heading |
| Script.BlocksInOrder | index.ts:71 | The filter keeps document order: the blocks of `a + b` are the blocks of `a` followed by those of `b` |
| Script.Title | index.ts:74 | The title exists exactly when the document has a first token |
| Script.TitleSpec | index.ts:71-74 | A non-empty script opening with a heading is titled by that heading's text, and the heading is not a block. Any other non-empty script is titled by its file name |
| Script.TitleIsNotABlock | index.ts:71-74 | A corollary of `TitleSpec`: a title that is not the file name is the text of a leading heading, and that heading is not read out as a block |
| Script.PatternMatchesIffContainsMd | index.ts:166 | The unanchored pattern `.*\.md` matches a name exactly when the name contains `.md` anywhere |
| Script.MarkdownFiles | index.ts:159-169 | Every offered script matches the pattern |
| Script.MarkdownFilesSpec | index.ts:166 | An entry is offered exactly when it is listed and matches the pattern, and listing order is kept |
| Script.UnanchoredExamples | index.ts:166 | `notes.md.bak` and `a.mdx` are offered too |
| Tagging.TakeMetadataSpec | index.ts:126-135 | The eight keys come in their fixed order. The values are: title is `<scriptTitle> - <progression>`; track is the progression; description and lyrics are the block text; album is the script title; copyright, author and album_artist are the environment's values, even when unset |
| Tagging.DemoMetadata | index.ts:122-136 | The first of two blocks of "Demo" reading "Hello" is tagged `Demo - 1/2`, `1/2`, `Hello`, `Demo` |
| Tagging.MetadataArgsAt | index.ts:36 | `flatMap` gives two arguments per key, in key order: `-metadata` then `key=value` |
| Tagging.FfmpegArgsShape | index.ts:32-37 | The argument vector is `-y -i <file>`, one flag/pair per key, then `<file>-metadata.mp4`. That is 4 + 2·(number of keys) arguments, and an unset value or path is rendered `undefined` |
| Tagging.TakeArgs | index.ts:30-38 | A take's tags always give 20 arguments, whatever the environment. The author is passed twice, as `author=<author>` and `album_artist=<author>`, and an unset author reaches ffmpeg as `author=undefined` and `album_artist=undefined` |
| Tagging.AbsentPathArgs | index.ts:32-37 | An absent file path is passed as the file `undefined`, and the tagged copy goes to `undefined-metadata.mp4` |
| Obs.Backend.constructor | index.ts:18 | The backend may be found in any state, including a recording left running |
| Obs.Backend.GetRecordingStatus | index.ts:51 | Reports whether a recording is active. The file name is present exactly while a recording is active and is then that recording's file. Changes nothing but logs the request |
| Obs.Backend.SetRecordingFolder | index.ts:56 | Sets the folder and logs the request |
| Obs.Backend.SetFilenameFormatting | index.ts:199 | Sets the file name format and logs the request |
| Obs.Backend.StartRecording | index.ts:188-194 | Honoured exactly when nothing is recording. It records into the current folder and format and announces that file |
| Obs.Backend.StopRecording | index.ts:175-179 | Honoured exactly when a recording is active. It announces the stopped recording's file |
| Recorder.StopIfRecording | index.ts:171-184 | Afterwards nothing is recording. The status is asked first, and exactly one StopRecording is sent when a recording was active, none otherwise. The name returned is the stopped file when a recording was active, and absent otherwise. Folder and format are kept |
| Recorder.StopIfRecordingIdempotent | index.ts:171-184 | A second stop only asks for the status and gets no file name |
| Recorder.FilePathQuery | index.ts:50-53 | Sends one status request and changes nothing else. The path is present exactly while recording, and is then the recording's file |
| Recorder.StopRecordingIfActive | index.ts:171-184 | Does to the backend exactly what `StopIfRecording` says and returns its name |
| Recorder.BeginRecording | index.ts:186-196 | Starts exactly when nothing was recording, then recording into the current folder and format. Otherwise the refused request is only logged |
| Recorder.SetFilename | index.ts:198-200 | Sets the format and logs the request, nothing else |
| Recorder.SetFileLocation | index.ts:55-57 | Sets the folder and logs the request, nothing else |
| Recorder.GetRecordingFilePath | index.ts:50-53 | Does exactly what `FilePathQuery` says |
| Actions.LabelInjective | index.ts:214-222 | No two choices share a label, so comparing labels compares choices |
| Session.BeginTakeSpec | index.ts:108-112 | A take's start sends, in order: the script's folder, the block's stem, a status request, a stop only if something was recording, and a start. The backend then records into the block's own file, with that folder and format |
| Session.CancelTake | index.ts:143-146 | Cancelling sets the format to `skip` before the stop, and leaves nothing recording |
| Session.Take | index.ts:106-149 | A take reads at most the answers it is given, and adds at most one tag request after the existing ones |
| Session.KeepTake | index.ts:122-136 | Keeping a take reads the path with one status request, then stops as `StopIfRecording` says, and appends one tag request for the path read with the block's tags |
| Session.StartTake | index.ts:108-112 | The four helper calls change the backend exactly as `BeginTake` says |
| Session.TakeLoop | index.ts:106-149 | The take loop ends with the outcome, backend state, tag requests and remaining answers that `Take` gives |
| Session.CursorLoop | index.ts:76-151 | The cursor loop ends with the outcome, backend state and tag requests that `Run` gives from block 0 |
| Session.Run | index.ts:76-151 | A session only appends tag requests. It never ends with `EmptyDocument`. It reads a missing block only at a negative cursor, and runs out of answers only on a real block |
| Session.Teleprompter | index.ts:71-151 | The outcome is `EmptyDocument` exactly for an empty script, and then nothing is sent and nothing is tagged |
| Session.RunSession | index.ts:71-151 | Title, blocks and cursor loop together do exactly what `Teleprompter` gives, `EmptyDocument` for an empty script included. The recording location is `RECORD_LOCATION`, or `~/obs-inbox` when that is unset or empty |
| SessionFacts.ReloadReoffersBlock | index.ts:98-101 | Reload leaves the cursor and everything else unchanged (`index - 1 + 1`) |
| SessionFacts.IgnoreAdvances | index.ts:102-104 | Any answer other than Record, Back and Reload advances the cursor by exactly one without touching the backend |
| SessionFacts.BackReturnsToPrevious | index.ts:94-97 | Back moves the cursor to `index - 1`. From the first block the session ends reading block -1 |
| SessionFacts.TakeMovesCursor | index.ts:137-148 | After a take, a kept take advances the cursor by one, a cancelled take re-offers the same block, and a take left without feedback ends the session there |
| SessionFacts.CancelReoffersBlock | index.ts:143-148 | Record then Cancel re-offers the same block, with nothing recording and the format set to `skip` |
| SessionFacts.OnlyBlockMinusOneIsUndefined | index.ts:76-97 | From any block, the only missing block a session can try to read is -1 |
| SessionFacts.IgnoringEveryBlockFinishes | index.ts:76-104 | Ignoring every block finishes the session without a request to the backend and without tags |
| SessionFacts.RetakeRecordsSameFile | index.ts:139-141 | Retake sends one stop, so the restarted take sends none, and records into the same file as before |
| SessionFacts.RetakeStopsThenRestarts | index.ts:139-141 | Answering Retake to a take sends one status request and one StopRecording, leaves nothing recording, and the take starts over from that stopped backend with the remaining answers |
| SessionFacts.TakeLog | index.ts:106-149 | A take only appends to the backend's log |
| SessionFacts.TakeRecording | index.ts:106-149 | A take leaves the backend recording exactly when no feedback was given, then into the block's file. A cancelled take leaves the format at `skip` |
| SessionFacts.TakeTagging | index.ts:122-136 | A kept take adds exactly one tag request: the block's own file with the block's tags. Retaken and cancelled takes add none |
| SessionFacts.KeepReadsPathBeforeStop | index.ts:122-124 | Good is answered while the block's take is recording, so the path read is the block's own file. The backend then receives two status requests and one stop, and a path read after that stop would be absent |
| SessionFacts.TakeTags | index.ts:122-136 | A take adds only tag requests of its own block |
| SessionFacts.RunLog | index.ts:76-151 | A session only appends to the backend's log |
| SessionFacts.RunTags | index.ts:76-151 | A session only appends tag requests, each for some block's file with that block's tags |
| SessionFacts.RunStopsRecording | index.ts:76-151 | A session that goes past the last block leaves nothing recording, unless it made no take at all and left the backend as it found it |
| SessionFacts.DemoBlocks | index.ts:71-74 | A script `# Demo`, `Hello`, blank, `World` has the title "Demo" and two blocks |
| SessionFacts.DemoFolder | index.ts:15 | With `RECORD_LOCATION` unset, the takes of `demo.md` go to `~/obs-inbox/demo.md` |
| SessionFacts.KeepFirstOfTwo | index.ts:76-151 | On any two-block script, Record then Good tags the first block's file with its tags, leaves nothing recording and stops at the second block |
| SessionFacts.DemoKeep | index.ts:71-151 | Record and Good on that script, for any `RECORD_LOCATION`, tag the first block's file, stem `demo.md-1`, in that location's `demo.md` folder with the `Demo - 1/2` tags and leave nothing recording |
| SessionFacts.DemoIgnore | index.ts:76-104 | Ignore twice on that script finishes with no backend request and no tags |

## Left out

- OBS connection and events:
  - The WebSocket transport and `connect` are not modelled.
  - The event listeners are not modelled. A start or stop is one atomic state change that returns the file the event would announce.
- The 500 ms delay before StartRecording is not modelled. It is timing only.
- An absent file path is an `undefined` element of the ffmpeg argument list. The model writes it as the text `undefined`, the string the process launcher turns it into. The rename onto an absent path, which fails, is not modelled.
- The ffmpeg process and the rename of its output are not modelled. The model covers only their arguments. Their failures, a hang of the process and the `FFMPEG_PATH` lookup are left out.
- Reading the folder and the script file, and the Markdown lexer, are not modelled. The model takes a directory listing and a token sequence as given.
- Terminal output is not modelled: clearing, printing the block and the colours.
- The prompts are not modelled. They are replaced by the sequence of answers.
- Live reload: the script is reloaded on every pass of the cursor loop. Here the blocks are fixed for the session, because changes to the file come from outside the program.
- Environment variables are parameters of the model. Only their `||` defaults are modelled. The `SCRIPT_LOCATION` and `FFMPEG_PATH` defaults feed only the folder listing, the script file read and the ffmpeg process, which are not modelled, so only the `RECORD_LOCATION` default appears.
- The backend changes only when the program sends it a request. A recording started or stopped from OBS itself between two requests is not modelled. Neither is the race in `stopRecording` (index.ts:172-179): the status says recording, the recording ends before the stop arrives, the stop is refused and the promise never settles. The rejection is unhandled, so Node 15 or later ends the process, and older Node waits forever.
- The outer `try`/`catch` is not modelled. It does not await the asynchronous body, so it catches nothing. A thrown error ends the session, as `UndefinedLine` and `EmptyDocument` show.
- Obs.Backend.StartRecording: the recorded file is the folder and the format joined. OBS's own file extension and its format specifiers are not modelled.
- Naming.JoinPath: models `path.join` only for a name without `.`, `..` or leading `/`, and does no normalisation of the directory.
- Recorder.BeginRecording: when OBS refuses the start, the rejected request escapes the promise's executor unhandled, and the promise never settles. Node 15 or later then ends the process, and older Node waits forever. Here it returns `started == false`.
- Script.Blocks: a block whose token has no `text` (a table or a list) is read as its text field. The "undefined" rendering of such a field is not modelled.
