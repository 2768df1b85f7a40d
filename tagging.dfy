/** What an accepted take is tagged with, and the argument vector handed to
    ffmpeg to write the tags (index.ts:30-38, 122-136). */
module Tagging {
  import opened Wrappers
  import opened Naming

  /** An object literal of optional strings, as its entries in key order
      (the order `Object.keys` gives for non-numeric keys). */
  type Metadata = seq<(string, Option<string>)>

  const MetadataKeys: seq<string> :=
    ["title", "track", "description", "lyrics", "album", "copyright", "author", "album_artist"]

  function Keys(md: Metadata): (ks: seq<string>)
    ensures |ks| == |md|
  {
    if md == [] then [] else [md[0].0] + Keys(md[1..])
  }

  /** The value of the first entry named `key`, if there is one. */
  function Lookup(md: Metadata, key: string): Option<Option<string>> {
    if md == [] then None else if md[0].0 == key then Some(md[0].1) else Lookup(md[1..], key)
  }

  lemma {:induction false} KeysAt(md: Metadata)
    ensures forall i :: 0 <= i < |md| ==> Keys(md)[i] == md[i].0
  {
    if md != [] {
      KeysAt(md[1..]);
      forall i | 1 <= i < |md| ensures Keys(md)[i] == md[i].0 {
        assert Keys(md)[i] == Keys(md[1..])[i - 1];
      }
    }
  }

  /** Looking up the key of entry `i`, when no earlier entry has it, gives
      that entry's value. */
  lemma {:induction false} LookupAt(md: Metadata, i: nat)
    requires i < |md| && forall j :: 0 <= j < i ==> md[j].0 != md[i].0
    ensures Lookup(md, md[i].0) == Some(md[i].1)
  {
    if i > 0 {
      LookupAt(md[1..], i - 1);
    }
  }

  /** The tags of a take of block `index` of `count` (zero-based) whose text
      is `text`; `copyright` and `author` come from the environment and may
      be unset. */
  function TakeMetadata(scriptTitle: string, index: nat, count: nat, text: string,
                        copyright: Option<string>, author: Option<string>): Metadata
  {
    var progression := Progression(index, count);
    [("title", Some(scriptTitle + " - " + progression)),
     ("track", Some(progression)),
     ("description", Some(text)),
     ("lyrics", Some(text)),
     ("album", Some(scriptTitle)),
     ("copyright", copyright),
     ("author", author),
     ("album_artist", author)]
  }

  /** The eight keys in their fixed order; the title is the album and the
      track joined by " - "; the track is the position label; description
      and lyrics are both the block's text; copyright, author and
      album_artist are the environment's values, unset ones included. */
  lemma TakeMetadataSpec(scriptTitle: string, index: nat, count: nat, text: string,
                         copyright: Option<string>, author: Option<string>)
    ensures var md := TakeMetadata(scriptTitle, index, count, text, copyright, author);
      && Keys(md) == MetadataKeys
      && Lookup(md, "album") == Some(Some(scriptTitle))
      && Lookup(md, "track") == Some(Some(Progression(index, count)))
      && Lookup(md, "title") == Some(Some(scriptTitle + " - " + Lookup(md, "track").value.value))
      && Lookup(md, "description") == Lookup(md, "lyrics") == Some(Some(text))
      && Lookup(md, "copyright") == Some(copyright)
      && Lookup(md, "author") == Lookup(md, "album_artist") == Some(author)
  {
    var md := TakeMetadata(scriptTitle, index, count, text, copyright, author);
    KeysAt(md);
    forall i | 0 <= i < |md| ensures Lookup(md, md[i].0) == Some(md[i].1) {
      LookupAt(md, i);
    }
    assert md[0].0 == "title" && md[1].0 == "track" && md[2].0 == "description" && md[3].0 == "lyrics";
    assert md[4].0 == "album" && md[5].0 == "copyright" && md[6].0 == "author" && md[7].0 == "album_artist";
  }

  /** The first of two blocks of the script "Demo", read as "Hello". */
  lemma DemoMetadata(copyright: Option<string>, author: Option<string>)
    ensures var md := TakeMetadata("Demo", 0, 2, "Hello", copyright, author);
      && Lookup(md, "title") == Some(Some("Demo - 1/2"))
      && Lookup(md, "track") == Some(Some("1/2"))
      && Lookup(md, "description") == Some(Some("Hello"))
      && Lookup(md, "album") == Some(Some("Demo"))
  {
    ProgressionExample();
    TakeMetadataSpec("Demo", 0, 2, "Hello", copyright, author);
    assert "Demo" + " - " + "1/2" == "Demo - 1/2";
  }

  /** How a template literal renders an optional string. */
  function Render(v: Option<string>): string {
    match v
    case Some(s) => s
    case None => "undefined"
  }

  function MetadataArg(entry: (string, Option<string>)): string {
    entry.0 + "=" + Render(entry.1)
  }

  /** `flatMap(key => ["-metadata", key=value])`. */
  function MetadataArgs(md: Metadata): seq<string> {
    if md == [] then [] else ["-metadata", MetadataArg(md[0])] + MetadataArgs(md[1..])
  }

  /** The file ffmpeg writes the tagged copy to; an absent path is
      concatenated as "undefined". */
  function DestinationFile(filePath: Option<string>): string {
    Render(filePath) + "-metadata.mp4"
  }

  /** The arguments ffmpeg is started with to tag `filePath`. An absent path
      reaches the process as the text "undefined". */
  function FfmpegArgs(filePath: Option<string>, md: Metadata): seq<string> {
    ["-y", "-i", Render(filePath)] + MetadataArgs(md) + [DestinationFile(filePath)]
  }

  lemma {:induction false} MetadataArgsAt(md: Metadata)
    ensures |MetadataArgs(md)| == 2 * |md|
    ensures forall k :: 0 <= k < |md| ==>
      MetadataArgs(md)[2 * k] == "-metadata" && MetadataArgs(md)[2 * k + 1] == MetadataArg(md[k])
  {
    if md != [] {
      MetadataArgsAt(md[1..]);
      var head, rest := ["-metadata", MetadataArg(md[0])], MetadataArgs(md[1..]);
      assert MetadataArgs(md) == head + rest;
      forall k | 1 <= k < |md|
        ensures MetadataArgs(md)[2 * k] == "-metadata" && MetadataArgs(md)[2 * k + 1] == MetadataArg(md[k])
      {
        var j := k - 1;
        assert md[1..][j] == md[k];
        assert (head + rest)[2 + 2 * j] == rest[2 * j];
        assert (head + rest)[2 + 2 * j + 1] == rest[2 * j + 1];
      }
    }
  }

  /** The vector is "-y", "-i", the file, then a "-metadata" flag and a
      "key=value" pair for every entry in key order, then the destination:
      4 + 2 * (number of keys) arguments, an unset value written "undefined". */
  lemma FfmpegArgsShape(filePath: Option<string>, md: Metadata)
    ensures var args := FfmpegArgs(filePath, md);
      && |args| == 4 + 2 * |md|
      && args[..3] == ["-y", "-i", Render(filePath)]
      && (forall k :: 0 <= k < |md| ==>
            args[3 + 2 * k] == "-metadata" && args[4 + 2 * k] == md[k].0 + "=" + Render(md[k].1))
      && args[|args| - 1] == Render(filePath) + "-metadata.mp4"
  {
    MetadataArgsAt(md);
    var args := FfmpegArgs(filePath, md);
    forall k | 0 <= k < |md|
      ensures args[3 + 2 * k] == "-metadata" && args[4 + 2 * k] == md[k].0 + "=" + Render(md[k].1)
    {
      assert args[3 + 2 * k] == MetadataArgs(md)[2 * k];
      assert args[4 + 2 * k] == MetadataArgs(md)[2 * k + 1];
    }
  }

  /** Eight entries whose last two are the author give 20 arguments, the
      author's two pairs at 16 and 18. */
  lemma AuthorArgs(filePath: Option<string>, md: Metadata, author: Option<string>)
    requires |md| == 8 && md[6] == ("author", author) && md[7] == ("album_artist", author)
    ensures var args := FfmpegArgs(filePath, md);
      && |args| == 20
      && args[16] == MetadataArg(("author", author)) && args[18] == MetadataArg(("album_artist", author))
      && (author.None? ==> args[16] == "author=undefined" && args[18] == "album_artist=undefined")
  {
    MetadataArgsAt(md);
    var args := FfmpegArgs(filePath, md);
    assert args[16] == MetadataArgs(md)[2 * 6 + 1];
    assert args[18] == MetadataArgs(md)[2 * 7 + 1];
    if author.None? {
      assert "author" + "=" + "undefined" == "author=undefined";
      assert "album_artist" + "=" + "undefined" == "album_artist=undefined";
    }
  }

  /** A take's tags always give 20 arguments. The environment's author is
      passed twice, as `author=` and as `album_artist=`, and an unset author
      reaches ffmpeg as "author=undefined" and "album_artist=undefined". */
  lemma TakeArgs(filePath: Option<string>, scriptTitle: string, index: nat, count: nat, text: string,
                 copyright: Option<string>, author: Option<string>)
    ensures var args := FfmpegArgs(filePath, TakeMetadata(scriptTitle, index, count, text, copyright, author));
      && |args| == 20
      && args[16] == MetadataArg(("author", author)) && args[18] == MetadataArg(("album_artist", author))
      && (author.None? ==> args[16] == "author=undefined" && args[18] == "album_artist=undefined")
  {
    AuthorArgs(filePath, TakeMetadata(scriptTitle, index, count, text, copyright, author), author);
  }

  /** A file path that was never reported is tagged as the file "undefined",
      and the tagged copy is written to "undefined-metadata.mp4". */
  lemma AbsentPathArgs(md: Metadata)
    ensures var args := FfmpegArgs(None, md);
      args[2] == "undefined" && args[|args| - 1] == "undefined-metadata.mp4"
  {
    FfmpegArgsShape(None, md);
  }
}
