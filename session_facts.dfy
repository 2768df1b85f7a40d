/** What the session guarantees: how each choice moves the cursor, what a
    take sends to the backend and leaves behind, and what a whole session
    tags. */
module SessionFacts {
  import opened Wrappers
  import opened Text
  import opened Naming
  import opened Script
  import opened Tagging
  import opened Obs
  import opened Recorder
  import opened Actions
  import opened Session

  // ---- the cursor: net effect of each choice after the loop's `index++` ----

  /** Reload shows the same block again and touches nothing else. */
  lemma ReloadReoffersBlock(cfg: Config, lines: seq<Token>, i: int, b: BackendState, tags: seq<TagRequest>,
                            rest: seq<Action>)
    requires 0 <= i < |lines|
    ensures Run(cfg, lines, i, b, tags, [Reload] + rest) == Run(cfg, lines, i, b, tags, rest)
  {
    assert ([Reload] + rest)[1..] == rest;
  }

  /** Any answer but Record, Back and Reload moves on to the next block
      without recording. */
  lemma IgnoreAdvances(cfg: Config, lines: seq<Token>, i: int, b: BackendState, tags: seq<TagRequest>,
                       a: Action, rest: seq<Action>)
    requires 0 <= i < |lines| && a != Record && a != Previous && a != Reload
    ensures Run(cfg, lines, i, b, tags, [a] + rest) == Run(cfg, lines, i + 1, b, tags, rest)
  {
    assert ([a] + rest)[1..] == rest;
  }

  /** Back shows the previous block; on the first block there is none, and
      the session dies reading the block at -1. */
  lemma BackReturnsToPrevious(cfg: Config, lines: seq<Token>, i: int, b: BackendState, tags: seq<TagRequest>,
                              rest: seq<Action>)
    requires 0 <= i < |lines|
    ensures Run(cfg, lines, i, b, tags, [Previous] + rest) == Run(cfg, lines, i - 1, b, tags, rest)
    ensures i == 0 ==> Run(cfg, lines, i, b, tags, [Previous] + rest) == SessionEnd(UndefinedLine(-1), b, tags)
  {
    assert ([Previous] + rest)[1..] == rest;
  }

  /** After a take, a kept take moves on to the next block, a cancelled one
      offers the same block again, and a take left without feedback ends
      the session on that block. */
  lemma TakeMovesCursor(cfg: Config, lines: seq<Token>, i: int, b: BackendState, tags: seq<TagRequest>,
                        input: seq<Action>)
    requires 0 <= i < |lines|
    ensures var t := Take(cfg, lines, i, b, tags, input);
      && (t.outcome == Accepted ==>
            Run(cfg, lines, i, b, tags, [Record] + input) == Run(cfg, lines, i + 1, t.backend, t.tags, t.rest))
      && (t.outcome == Abandoned ==>
            Run(cfg, lines, i, b, tags, [Record] + input) == Run(cfg, lines, i, t.backend, t.tags, t.rest))
      && (t.outcome == NoFeedback ==>
            Run(cfg, lines, i, b, tags, [Record] + input) == SessionEnd(InputExhausted(i), t.backend, t.tags))
  {
    assert ([Record] + input)[1..] == input;
  }

  /** Recording then cancelling offers the same block again, with the
      backend stopped and its format switched to the sentinel. */
  lemma CancelReoffersBlock(cfg: Config, lines: seq<Token>, i: int, b: BackendState, tags: seq<TagRequest>,
                            rest: seq<Action>)
    requires 0 <= i < |lines|
    ensures var after := CancelTake(BeginTake(cfg, i, b));
      && Run(cfg, lines, i, b, tags, [Record, Skip] + rest) == Run(cfg, lines, i, after, tags, rest)
      && !after.isRecording && after.filenameFormat == SkipFormat
  {
    assert ([Record, Skip] + rest)[1..] == [Skip] + rest;
    assert ([Skip] + rest)[1..] == rest;
  }

  /** The cursor never goes below -1, so a session started on a block only
      ever fails reading block -1, which only Back on the first block
      reaches. */
  lemma {:induction false} OnlyBlockMinusOneIsUndefined(cfg: Config, lines: seq<Token>, i: int, b: BackendState,
                                                        tags: seq<TagRequest>, input: seq<Action>)
    requires 0 <= i
    ensures var r := Run(cfg, lines, i, b, tags, input);
      r.outcome.UndefinedLine? ==> r.outcome.index == -1
    decreases |input|
  {
    if i < |lines| && input != [] {
      var rest := input[1..];
      match input[0]
      case Previous =>
        if i > 0 {
          OnlyBlockMinusOneIsUndefined(cfg, lines, i - 1, b, tags, rest);
        }
      case Reload =>
        OnlyBlockMinusOneIsUndefined(cfg, lines, i, b, tags, rest);
      case Record =>
        var t := Take(cfg, lines, i, b, tags, rest);
        if t.outcome != NoFeedback {
          OnlyBlockMinusOneIsUndefined(cfg, lines, if t.outcome == Accepted then i + 1 else i,
                                       t.backend, t.tags, t.rest);
        }
      case _ =>
        OnlyBlockMinusOneIsUndefined(cfg, lines, i + 1, b, tags, rest);
    }
  }

  /** Answering Ignore once per block, from block `i` on, finishes the
      session without a single request to the backend and without tagging. */
  lemma {:induction false} IgnoringEveryBlockFinishes(cfg: Config, lines: seq<Token>, i: nat, b: BackendState,
                                                      tags: seq<TagRequest>)
    requires i <= |lines|
    ensures Run(cfg, lines, i, b, tags, seq(|lines| - i, _ => Ignore)) == SessionEnd(Finished, b, tags)
    decreases |lines| - i
  {
    if i < |lines| {
      var input := seq(|lines| - i, _ => Ignore);
      assert input[0] == Ignore;
      assert input[1..] == seq(|lines| - (i + 1), _ => Ignore);
      IgnoringEveryBlockFinishes(cfg, lines, i + 1, b, tags);
    }
  }

  // ---- a take ----

  /** Retaking stops the take with one StopRecording, so the restart finds
      nothing recording and sends no stop of its own (`BeginTakeSpec`), and
      records the block into the same file as before. */
  lemma RetakeRecordsSameFile(cfg: Config, index: nat, b: BackendState)
    ensures var first := BeginTake(cfg, index, b);
      var stopped := StopIfRecording(first).state;
      && stopped.log == first.log + [GetRecordingStatus, StopRecording] && !stopped.isRecording
      && BeginTake(cfg, index, stopped).recordingFilename == first.recordingFilename == TakeFile(cfg, index)
  {
    BeginTakeSpec(cfg, index, b);
    BeginTakeSpec(cfg, index, StopIfRecording(BeginTake(cfg, index, b)).state);
  }

  /** The Retake step of a take: the recording is stopped with one status
      request and one StopRecording, and the take starts over from the
      stopped backend with the remaining answers. */
  lemma RetakeStopsThenRestarts(cfg: Config, lines: seq<Token>, index: nat, b: BackendState,
                                tags: seq<TagRequest>, rest: seq<Action>)
    requires index < |lines|
    ensures var first := BeginTake(cfg, index, b);
      var s := StopIfRecording(first).state;
      && s.log == first.log + [GetRecordingStatus, StopRecording] && !s.isRecording
      && Take(cfg, lines, index, b, tags, [Retake] + rest) == Take(cfg, lines, index, s, tags, rest)
  {
    BeginTakeSpec(cfg, index, b);
    assert ([Retake] + rest)[0] == Retake;
    assert ([Retake] + rest)[1..] == rest;
  }

  /** `after` is `before` with more requests after it. */
  ghost predicate Extends(before: seq<Command>, after: seq<Command>) {
    |before| <= |after| && after[..|before|] == before
  }

  lemma ExtendsTransitive(a: seq<Command>, b: seq<Command>, c: seq<Command>)
    requires Extends(a, b) && Extends(b, c)
    ensures Extends(a, c)
  {
    assert c[..|a|] == c[..|b|][..|a|];
  }

  /** A take's start, and a retake's stop after it, only append. */
  lemma BeginTakeExtends(cfg: Config, index: nat, b: BackendState)
    ensures Extends(b.log, BeginTake(cfg, index, b).log)
    ensures Extends(BeginTake(cfg, index, b).log, StopIfRecording(BeginTake(cfg, index, b)).state.log)
  {
    BeginTakeSpec(cfg, index, b);
  }

  /** A take only ever appends to the backend's log. */
  lemma {:induction false} TakeLog(cfg: Config, lines: seq<Token>, index: nat, b: BackendState,
                                   tags: seq<TagRequest>, input: seq<Action>)
    requires index < |lines|
    ensures Extends(b.log, Take(cfg, lines, index, b, tags, input).backend.log)
    decreases |input|
  {
    var b1 := BeginTake(cfg, index, b);
    BeginTakeExtends(cfg, index, b);
    if input != [] && input[0] != Good && input[0] != Skip {
      var b2 := if input[0] == Retake then StopIfRecording(b1).state else b1;
      ExtendsTransitive(b.log, b1.log, b2.log);
      TakeLog(cfg, lines, index, b2, tags, input[1..]);
      ExtendsTransitive(b.log, b2.log, Take(cfg, lines, index, b2, tags, input[1..]).backend.log);
    }
  }

  /** A take leaves the backend recording exactly when the operator gave no
      feedback, and then into this block's file; a cancelled take leaves the
      format at the sentinel. */
  lemma {:induction false} TakeRecording(cfg: Config, lines: seq<Token>, index: nat, b: BackendState,
                                         tags: seq<TagRequest>, input: seq<Action>)
    requires index < |lines|
    ensures var t := Take(cfg, lines, index, b, tags, input);
      && (t.backend.isRecording <==> t.outcome == NoFeedback)
      && (t.outcome == NoFeedback ==> t.rest == [] && t.backend.recordingFilename == TakeFile(cfg, index))
      && (t.outcome == Abandoned ==> t.backend.filenameFormat == SkipFormat)
    decreases |input|
  {
    BeginTakeSpec(cfg, index, b);
    if input != [] && input[0] != Good && input[0] != Skip {
      var b1 := BeginTake(cfg, index, b);
      var b2 := if input[0] == Retake then StopIfRecording(b1).state else b1;
      TakeRecording(cfg, lines, index, b2, tags, input[1..]);
    }
  }

  /** A kept take adds one tag request: this block's file, read while it was
      being recorded, with this block's tags; a retaken or cancelled one
      adds none. */
  lemma {:induction false} TakeTagging(cfg: Config, lines: seq<Token>, index: nat, b: BackendState,
                                       tags: seq<TagRequest>, input: seq<Action>)
    requires index < |lines|
    ensures var t := Take(cfg, lines, index, b, tags, input);
      && (t.outcome == Accepted ==> t.tags == tags + [TagFor(cfg, lines, index)])
      && (t.outcome != Accepted ==> t.tags == tags)
    decreases |input|
  {
    BeginTakeSpec(cfg, index, b);
    if input != [] && input[0] != Good && input[0] != Skip {
      var b1 := BeginTake(cfg, index, b);
      var b2 := if input[0] == Retake then StopIfRecording(b1).state else b1;
      TakeTagging(cfg, lines, index, b2, tags, input[1..]);
    }
  }

  /** Keeping a take asks for the file while the take is still recording,
      then stops it: a status request that returns the block's file, then
      the defensive stop's status request and its StopRecording. The tag
      request therefore names the block's file; asked after the stop, the
      backend would have reported no file. */
  lemma KeepReadsPathBeforeStop(cfg: Config, lines: seq<Token>, index: nat, b: BackendState,
                                tags: seq<TagRequest>, rest: seq<Action>)
    requires index < |lines|
    ensures var recording := BeginTake(cfg, index, b);
      var t := Take(cfg, lines, index, b, tags, [Good] + rest);
      && recording.isRecording
      && FilePathQuery(recording).filename == Some(TakeFile(cfg, index))
      && t.backend.log == recording.log + [GetRecordingStatus, GetRecordingStatus, StopRecording]
      && t.tags == tags + [TagFor(cfg, lines, index)]
      && FilePathQuery(StopIfRecording(recording).state).filename == None
  {
    BeginTakeSpec(cfg, index, b);
    assert ([Good] + rest)[0] == Good;
  }

  // ---- a whole session ----

  /** `x` is the tag request of a kept take of some block. */
  ghost predicate BlockTag(cfg: Config, lines: seq<Token>, x: TagRequest) {
    exists k :: 0 <= k < |lines| && x == TagFor(cfg, lines, k)
  }

  /** `after` is `before` followed by tag requests of kept takes. */
  ghost predicate TagsExtend(cfg: Config, lines: seq<Token>, before: seq<TagRequest>, after: seq<TagRequest>) {
    && |before| <= |after| && after[..|before|] == before
    && forall j :: |before| <= j < |after| ==> BlockTag(cfg, lines, after[j])
  }

  lemma TagsExtendTransitive(cfg: Config, lines: seq<Token>, a: seq<TagRequest>, b: seq<TagRequest>,
                             c: seq<TagRequest>)
    requires TagsExtend(cfg, lines, a, b) && TagsExtend(cfg, lines, b, c)
    ensures TagsExtend(cfg, lines, a, c)
  {
    assert c[..|a|] == c[..|b|][..|a|];
    forall j | |a| <= j < |b|
      ensures BlockTag(cfg, lines, c[j])
    {
      assert c[j] == c[..|b|][j];
    }
  }

  /** A take adds at most one tag request, for its own block. */
  lemma TakeTags(cfg: Config, lines: seq<Token>, index: nat, b: BackendState, tags: seq<TagRequest>,
                 input: seq<Action>)
    requires index < |lines|
    ensures TagsExtend(cfg, lines, tags, Take(cfg, lines, index, b, tags, input).tags)
  {
    TakeTagging(cfg, lines, index, b, tags, input);
    var t := Take(cfg, lines, index, b, tags, input);
    if t.outcome == Accepted {
      assert t.tags[|tags|] == TagFor(cfg, lines, index);
    }
  }

  /** A session only appends to the backend's log. */
  lemma {:induction false} RunLog(cfg: Config, lines: seq<Token>, i: int, b: BackendState,
                                  tags: seq<TagRequest>, input: seq<Action>)
    ensures Extends(b.log, Run(cfg, lines, i, b, tags, input).backend.log)
    decreases |input|
  {
    if 0 <= i < |lines| && input != [] {
      var rest := input[1..];
      if input[0] == Record {
        TakeLog(cfg, lines, i, b, tags, rest);
        var t := Take(cfg, lines, i, b, tags, rest);
        if t.outcome != NoFeedback {
          var next := if t.outcome == Accepted then i + 1 else i;
          RunLog(cfg, lines, next, t.backend, t.tags, t.rest);
          ExtendsTransitive(b.log, t.backend.log, Run(cfg, lines, next, t.backend, t.tags, t.rest).backend.log);
        }
      } else {
        RunLog(cfg, lines, if input[0] == Previous then i - 1 else if input[0] == Reload then i else i + 1,
               b, tags, rest);
      }
    }
  }

  /** A session only appends to the tag requests, and every request it adds
      tags a block's own file with that block's tags. */
  lemma {:induction false} RunTags(cfg: Config, lines: seq<Token>, i: int, b: BackendState,
                                   tags: seq<TagRequest>, input: seq<Action>)
    ensures TagsExtend(cfg, lines, tags, Run(cfg, lines, i, b, tags, input).tags)
    decreases |input|
  {
    if 0 <= i < |lines| && input != [] {
      var rest := input[1..];
      if input[0] == Record {
        TakeTags(cfg, lines, i, b, tags, rest);
        var t := Take(cfg, lines, i, b, tags, rest);
        if t.outcome != NoFeedback {
          var next := if t.outcome == Accepted then i + 1 else i;
          RunTags(cfg, lines, next, t.backend, t.tags, t.rest);
          TagsExtendTransitive(cfg, lines, tags, t.tags, Run(cfg, lines, next, t.backend, t.tags, t.rest).tags);
        }
      } else {
        RunTags(cfg, lines, if input[0] == Previous then i - 1 else if input[0] == Reload then i else i + 1,
                b, tags, rest);
      }
    }
  }

  /** A session that goes past the last block leaves nothing recording,
      unless no take was made at all and the backend is as it was found. */
  lemma {:induction false} RunStopsRecording(cfg: Config, lines: seq<Token>, i: int, b: BackendState,
                                             tags: seq<TagRequest>, input: seq<Action>)
    ensures var r := Run(cfg, lines, i, b, tags, input);
      r.outcome == Finished ==> !r.backend.isRecording || r.backend == b
    decreases |input|
  {
    if 0 <= i < |lines| && input != [] {
      var rest := input[1..];
      if input[0] == Record {
        TakeRecording(cfg, lines, i, b, tags, rest);
        var t := Take(cfg, lines, i, b, tags, rest);
        if t.outcome != NoFeedback {
          RunStopsRecording(cfg, lines, if t.outcome == Accepted then i + 1 else i, t.backend, t.tags, t.rest);
        }
      } else {
        RunStopsRecording(cfg, lines, if input[0] == Previous then i - 1 else if input[0] == Reload then i else i + 1,
                          b, tags, rest);
      }
    }
  }

  // ---- two sessions on a two-block script titled "Demo" ----

  function DemoTokens(): seq<Token> {
    [Token("heading", "# Demo\n", "Demo"), Token("paragraph", "Hello\n", "Hello"),
     Token("space", "\n", ""), Token("paragraph", "World\n", "World")]
  }

  lemma DemoBlocks()
    ensures Title(DemoTokens(), "demo.md") == Some("Demo")
    ensures Blocks(DemoTokens()) == [DemoTokens()[1], DemoTokens()[3]]
  {
    var ts := DemoTokens();
    assert ts == [ts[0]] + [ts[1]] + [ts[2]] + [ts[3]];
    BlocksInOrder([ts[0]] + [ts[1]] + [ts[2]], [ts[3]]);
    BlocksInOrder([ts[0]] + [ts[1]], [ts[2]]);
    BlocksInOrder([ts[0]], [ts[1]]);
  }

  /** With RECORD_LOCATION unset, takes of "demo.md" go to
      "~/obs-inbox/demo.md". */
  lemma DemoFolder()
    ensures RecordFolder(OrDefault(None, DefaultRecordLocation), "demo.md") == "~/obs-inbox/demo.md"
  {
    var loc := OrDefault(None, DefaultRecordLocation);
    assert loc == "~/obs-inbox" && loc[|loc| - 1] == 'x';
    assert JoinPath(loc, "demo.md") == loc + "/" + "demo.md";
  }

  /** On a script of two blocks, Record then Good on the first one keeps
      one take, tags it, stops, and leaves the operator on the second. */
  lemma KeepFirstOfTwo(cfg: Config, lines: seq<Token>, b: BackendState)
    requires |lines| == 2
    ensures var r := Run(cfg, lines, 0, b, [], [Record, Good]);
      r.outcome == InputExhausted(1) && !r.backend.isRecording && r.tags == [TagFor(cfg, lines, 0)]
  {
    KeepReadsPathBeforeStop(cfg, lines, 0, b, [], []);
    TakeRecording(cfg, lines, 0, b, [], [Good]);
    assert [Record, Good][1..] == [Good] && [Good] + [] == [Good];
  }

  /** Recording the first block and keeping the take tags that block's
      file, under the record location or its default, with the
      "Demo - 1/2" tags, and leaves nothing recording. */
  lemma DemoKeep(recordLocationEnv: Option<string>, copyright: Option<string>, author: Option<string>,
                 b: BackendState)
    ensures var r := Teleprompter(recordLocationEnv, "demo.md", DemoTokens(), copyright, author, b, [Record, Good]);
      && r.outcome == InputExhausted(1) && !r.backend.isRecording
      && r.tags == [TagRequest(Some(OutputPath(RecordFolder(OrDefault(recordLocationEnv, DefaultRecordLocation),
                                                            "demo.md"), Stem("demo.md", 0))),
                               TakeMetadata("Demo", 0, 2, "Hello", copyright, author))]
      && Stem("demo.md", 0) == "demo.md-1"
  {
    StemExample();
    DemoBlocks();
    var lines := Blocks(DemoTokens());
    var cfg := Config(OrDefault(recordLocationEnv, DefaultRecordLocation), "demo.md", "Demo", copyright, author);
    KeepFirstOfTwo(cfg, lines, b);
  }

  /** Ignoring both blocks finishes without a request to the backend. */
  lemma DemoIgnore(recordLocationEnv: Option<string>, copyright: Option<string>, author: Option<string>,
                   b: BackendState)
    ensures Teleprompter(recordLocationEnv, "demo.md", DemoTokens(), copyright, author, b, [Ignore, Ignore])
         == SessionEnd(Finished, b, [])
  {
    DemoBlocks();
    var cfg := Config(OrDefault(recordLocationEnv, DefaultRecordLocation), "demo.md", "Demo", copyright, author);
    assert seq(2, _ => Ignore) == [Ignore, Ignore];
    IgnoringEveryBlockFinishes(cfg, Blocks(DemoTokens()), 0, b, []);
  }
}
