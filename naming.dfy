/** The names a take is given: the folder it is recorded into, its file name
    stem, the progression label, and the environment defaults these start
    from (index.ts:14-15, 84, 108-109). */
module Naming {
  import opened Wrappers
  import opened Text

  /** Where takes are recorded when RECORD_LOCATION is not set. */
  const DefaultRecordLocation: string := "~/obs-inbox"

  /** `process.env.X || fallback`: an unset variable and an empty one both
      give the fallback, since the empty string is falsy. */
  function OrDefault(v: Option<string>, fallback: string): (r: string)
    ensures v.Some? && v.value != "" ==> r == v.value
    ensures r == fallback <==> v.None? || v.value == "" || v.value == fallback
    ensures r != "" <==> fallback != "" || (v.Some? && v.value != "")
  {
    if v.None? || v.value == "" then fallback else v.value
  }

  /** `path.join(dir, name)` for a relative `name` without `.` or `..`
      segments: the two joined by exactly one separator. */
  function JoinPath(dir: string, name: string): (r: string)
    ensures r == dir + name || r == dir + "/" + name
    ensures dir != "" && dir[|dir| - 1] != '/' ==> r == dir + "/" + name
    ensures |r| >= |dir| + |name| && r[|r| - |name|..] == name
    ensures r[..|dir|] == dir
  {
    if dir == "" then name
    else if dir[|dir| - 1] == '/' then dir + name
    else dir + "/" + name
  }

  /** Two names joined to the same directory give the same path only when
      they are the same name: each script records into its own folder. */
  lemma JoinPathInjective(dir: string, a: string, b: string)
    requires JoinPath(dir, a) == JoinPath(dir, b)
    ensures a == b
  {
    var r := JoinPath(dir, a);
    if dir == "" {
    } else if dir[|dir| - 1] == '/' {
      assert r == dir + a == dir + b;
      assert a == r[|dir|..] == b;
    } else {
      assert r == dir + "/" + a == dir + "/" + b;
      assert a == r[|dir| + 1..] == b;
    }
  }

  /** The folder takes of `scriptFile` are recorded into. */
  function RecordFolder(recordLocation: string, scriptFile: string): string {
    JoinPath(recordLocation, scriptFile)
  }

  /** The file name format of a take of block `index` (zero-based):
      `<scriptFile>-<index + 1>`. */
  function Stem(scriptFile: string, index: nat): string
  {
    scriptFile + "-" + NatToString(index + 1)
  }

  /** Different blocks, or blocks of different scripts, never share a file
      name stem: the number after the last '-' tells the block. */
  lemma {:induction false} StemInjective(f: string, i: nat, g: string, j: nat)
    requires Stem(f, i) == Stem(g, j)
    ensures f == g && i == j
  {
    NatToStringShape(i + 1);
    NatToStringShape(j + 1);
    DigitsExclude(NatToString(i + 1), '-');
    DigitsExclude(NatToString(j + 1), '-');
    SplitAtLast(f, NatToString(i + 1), g, NatToString(j + 1), '-');
    NatToStringInjective(i + 1, j + 1);
  }

  /** Blocks are numbered from one: the first block of `demo.md` is
      recorded as `demo.md-1`. */
  lemma StemExample()
    ensures Stem("demo.md", 0) == "demo.md-1"
  {
    assert NatToString(1) == "1";
  }

  /** The file name format a cancelled take is switched to. */
  const SkipFormat: string := "skip"

  /** No block's stem is the cancel sentinel: the format a cancel leaves
      behind never names a block's file. */
  lemma SkipIsNoStem(f: string, i: nat)
    ensures Stem(f, i) != SkipFormat
  {
    var s := Stem(f, i);
    assert s[|f|] == '-';
    assert '-' in s;
  }

  /** The position label `<index + 1>/<count>`. */
  function Progression(index: nat, count: nat): string
  {
    NatToString(index + 1) + "/" + NatToString(count)
  }

  /** The label determines both the position and the count. */
  lemma {:induction false} ProgressionInjective(i: nat, n: nat, j: nat, m: nat)
    requires Progression(i, n) == Progression(j, m)
    ensures i == j && n == m
  {
    NatToStringShape(i + 1);
    NatToStringShape(j + 1);
    DigitsExclude(NatToString(i + 1), '/');
    DigitsExclude(NatToString(j + 1), '/');
    SplitAtFirst(NatToString(i + 1), NatToString(n), NatToString(j + 1), NatToString(m), '/');
    NatToStringInjective(i + 1, j + 1);
    NatToStringInjective(n, m);
  }

  /** The first block of two is labelled "1/2". */
  lemma ProgressionExample()
    ensures Progression(0, 2) == "1/2"
  {
  }
}
