/** Choosing a script and cutting it into blocks: the lexer's tokens minus
    blank space and headings, the script title, and the directory filter
    that offers the scripts to choose from (index.ts:71, 74, 159-169). */
module Script {
  import opened Wrappers
  import Seqs

  /** One token of the Markdown lexer: its type, its source text and its
      plain text. */
  datatype Token = Token(kind: string, raw: string, text: string)

  predicate IsBlock(t: Token) {
    t.kind != "space" && t.kind != "heading"
  }

  /** The blocks read to the camera, in document order (`loadContent`). */
  function Blocks(tokens: seq<Token>): (lines: seq<Token>)
    ensures forall i :: 0 <= i < |lines| ==> IsBlock(lines[i])
  {
    Seqs.FilterAllKept(tokens, IsBlock);
    Seqs.Filter(tokens, IsBlock)
  }

  /** A token is a block exactly when it is in the document and is neither
      blank space nor a heading. */
  lemma BlocksMembership(tokens: seq<Token>, t: Token)
    ensures t in Blocks(tokens) <==> t in tokens && t.kind != "space" && t.kind != "heading"
  {
    Seqs.FilterMembership(tokens, IsBlock, t);
  }

  /** Blocks keep document order: the blocks of a document cut in two are
      the blocks of the first part followed by those of the second. */
  lemma BlocksInOrder(a: seq<Token>, b: seq<Token>)
    ensures Blocks(a + b) == Blocks(a) + Blocks(b)
  {
    Seqs.FilterAppend(a, b, IsBlock);
  }

  /** The script title: the text of the first token when it is a heading,
      the file name otherwise; `None` for an empty document, where reading
      the first token's type throws. */
  function Title(tokens: seq<Token>, fileName: string): (r: Option<string>)
    ensures r.None? <==> tokens == []
  {
    if tokens == [] then None
    else if tokens[0].kind == "heading" then Some(tokens[0].text)
    else Some(fileName)
  }

  /** A non-empty script is titled by its leading heading when it opens with
      one, and by its file name otherwise; a leading heading is never read
      out as a block. */
  lemma TitleSpec(tokens: seq<Token>, fileName: string)
    requires tokens != []
    ensures tokens[0].kind == "heading" ==>
              Title(tokens, fileName) == Some(tokens[0].text) && tokens[0] !in Blocks(tokens)
    ensures tokens[0].kind != "heading" ==> Title(tokens, fileName) == Some(fileName)
  {
    BlocksMembership(tokens, tokens[0]);
  }

  /** A corollary of `TitleSpec`: a title that is not the file name came
      from a leading heading, and that heading is not read out as a block. */
  lemma TitleIsNotABlock(tokens: seq<Token>, fileName: string)
    requires tokens != [] && Title(tokens, fileName) != Some(fileName)
    ensures tokens[0].kind == "heading" && Title(tokens, fileName) == Some(tokens[0].text)
    ensures tokens[0] !in Blocks(tokens)
  {
    TitleSpec(tokens, fileName);
  }

  // ---- the script picker: `file.match(".*\\.md")` ----

  /** The characters a JavaScript regular expression `.` does not match. */
  predicate IsLineTerminator(c: char) {
    c == '\n' || c == '\r' || c == '\U{2028}' || c == '\U{2029}'
  }

  predicate NoLineTerminator(s: string) {
    forall i :: 0 <= i < |s| ==> !IsLineTerminator(s[i])
  }

  /** `.*\.md` matches `name` starting at `p`, with `.*` consuming up to `j`. */
  ghost predicate MatchAt(name: string, p: int, j: int) {
    0 <= p <= j && j + 3 <= |name| && NoLineTerminator(name[p..j]) && name[j..j + 3] == ".md"
  }

  /** What `String.prototype.match` with the unanchored pattern `.*\.md`
      answers: whether the pattern matches anywhere in the name. */
  ghost predicate PatternMatches(name: string) {
    exists p, j :: MatchAt(name, p, j)
  }

  /** ".md" occurs in `name` at position `j`. */
  ghost predicate MdAt(name: string, j: int) {
    0 <= j && j + 3 <= |name| && name[j..j + 3] == ".md"
  }

  /** ".md" occurs somewhere in `name`. */
  predicate ContainsMd(name: string) {
    |name| >= 3 && (name[..3] == ".md" || ContainsMd(name[1..]))
  }

  lemma {:induction false} ContainsMdAt(name: string)
    ensures ContainsMd(name) <==> exists j :: MdAt(name, j)
  {
    if |name| >= 3 {
      ContainsMdAt(name[1..]);
      if name[..3] == ".md" {
        assert MdAt(name, 0);
      }
      if ContainsMd(name[1..]) {
        var j :| MdAt(name[1..], j);
        assert name[j + 1..j + 4] == ".md";
        assert MdAt(name, j + 1);
      }
      if exists j :: MdAt(name, j) {
        var j :| MdAt(name, j);
        if j > 0 {
          assert name[1..][j - 1..j + 2] == name[j..j + 3];
          assert MdAt(name[1..], j - 1);
        } else {
          assert name[..3] == name[0..3];
        }
        assert ContainsMd(name);
      }
    }
  }

  /** Because the pattern is not anchored and `.*` may match nothing, it
      matches exactly the names that contain ".md" anywhere, ".md" at the
      end or not. */
  lemma PatternMatchesIffContainsMd(name: string)
    ensures PatternMatches(name) <==> ContainsMd(name)
  {
    ContainsMdAt(name);
    if ContainsMd(name) {
      var j :| MdAt(name, j);
      assert MatchAt(name, j, j);
    }
    if PatternMatches(name) {
      var p, j :| MatchAt(name, p, j);
      assert MdAt(name, j);
    }
  }

  /** The scripts offered to the operator (`findMarkdownFilesIn`): the
      directory entries the pattern matches, in listing order. */
  function MarkdownFiles(entries: seq<string>): (files: seq<string>)
    ensures forall i :: 0 <= i < |files| ==> PatternMatches(files[i])
  {
    Seqs.FilterAllKept(entries, ContainsMd);
    forall i | 0 <= i < |Seqs.Filter(entries, ContainsMd)|
      ensures PatternMatches(Seqs.Filter(entries, ContainsMd)[i])
    {
      PatternMatchesIffContainsMd(Seqs.Filter(entries, ContainsMd)[i]);
    }
    Seqs.Filter(entries, ContainsMd)
  }

  /** An entry is offered exactly when it is listed and the pattern
      matches it; the picker keeps listing order. */
  lemma MarkdownFilesSpec(entries: seq<string>, more: seq<string>, name: string)
    ensures name in MarkdownFiles(entries) <==> name in entries && PatternMatches(name)
    ensures MarkdownFiles(entries + more) == MarkdownFiles(entries) + MarkdownFiles(more)
  {
    Seqs.FilterMembership(entries, ContainsMd, name);
    PatternMatchesIffContainsMd(name);
    Seqs.FilterAppend(entries, more, ContainsMd);
  }

  /** Names that merely contain ".md" are offered too. */
  lemma UnanchoredExamples()
    ensures PatternMatches("notes.md.bak") && PatternMatches("a.mdx")
  {
    assert MatchAt("notes.md.bak", 0, 5);
    assert MatchAt("a.mdx", 1, 1);
  }
}
