/**
 * Path and text helpers of the handlers: `String.prototype.split` on one
 * separator character, Node's `path.join` of a directory and a file
 * name, and the local paths of the video pipeline.
 */
module Paths {

  /** `s.split(sep)`: the pieces between separators, empty pieces included. */
  function Split(s: string, sep: char): (parts: seq<string>)
    ensures |parts| >= 1
    ensures forall i :: 0 <= i < |parts| ==> sep !in parts[i]
    decreases |s|
  {
    if s == [] then [""]
    else
      var rest := Split(s[1..], sep);
      if s[0] == sep then [""] + rest
      else [[s[0]] + rest[0]] + rest[1..]
  }

  /** `parts.join(sep)`. */
  function Join(parts: seq<string>, sep: char): string
    requires |parts| >= 1
    decreases |parts|
  {
    if |parts| == 1 then parts[0] else parts[0] + [sep] + Join(parts[1..], sep)
  }

  /** Splitting at a separator splits the two sides independently. */
  lemma {:induction false} SplitAtSeparator(a: string, b: string, sep: char)
    ensures Split(a + [sep] + b, sep) == Split(a, sep) + Split(b, sep)
    decreases |a|
  {
    var s := a + [sep] + b;
    if a == [] {
      assert s[1..] == b;
    } else {
      assert s[1..] == a[1..] + [sep] + b;
      SplitAtSeparator(a[1..], b, sep);
    }
  }

  /** A text without the separator is a single piece. */
  lemma {:induction false} SplitWithoutSeparator(s: string, sep: char)
    requires sep !in s
    ensures Split(s, sep) == [s]
    decreases |s|
  {
    if s != [] {
      SplitWithoutSeparator(s[1..], sep);
      assert [s[0]] + s[1..] == s;
    }
  }

  lemma {:induction false} JoinSplit(s: string, sep: char)
    ensures Join(Split(s, sep), sep) == s
    decreases |s|
  {
    if s != [] {
      var rest := Split(s[1..], sep);
      JoinSplit(s[1..], sep);
      if s[0] == sep {
        assert ([""] + rest)[1..] == rest;
      } else {
        var parts := [[s[0]] + rest[0]] + rest[1..];
        if |rest| > 1 {
          assert parts[1..] == rest[1..];
        }
        assert [s[0]] + s[1..] == s;
      }
    }
  }

  lemma {:induction false} SplitJoin(parts: seq<string>, sep: char)
    requires |parts| >= 1
    requires forall i :: 0 <= i < |parts| ==> sep !in parts[i]
    ensures Split(Join(parts, sep), sep) == parts
    decreases |parts|
  {
    SplitWithoutSeparator(parts[0], sep);
    if |parts| > 1 {
      SplitAtSeparator(parts[0], Join(parts[1..], sep), sep);
      SplitJoin(parts[1..], sep);
      assert [parts[0]] + parts[1..] == parts;
    }
  }

  /** The last piece of a `/`-separated path. */
  function BaseName(path: string): string {
    var parts := Split(path, '/');
    parts[|parts| - 1]
  }

  /**
   * `path.join(dir, name)` for a file name without `/`: an empty directory
   * gives the name alone, a directory ending in `/` is not doubled.
   */
  function JoinPath(dir: string, name: string): string {
    if dir == [] then name
    else if dir[|dir| - 1] == '/' then dir + name
    else dir + "/" + name
  }

  /** The file written is the one named, whatever the directory. */
  lemma JoinPathBaseName(dir: string, name: string)
    requires '/' !in name
    ensures BaseName(JoinPath(dir, name)) == name
  {
    SplitWithoutSeparator(name, '/');
    if dir != [] {
      var d := if dir[|dir| - 1] == '/' then dir[..|dir| - 1] else dir;
      assert JoinPath(dir, name) == d + ['/'] + name;
      SplitAtSeparator(d, name, '/');
    }
  }

  /** The staging path of an upload: `/tmp/<key>`. */
  function StagingPath(fileName: string): string {
    "/tmp/" + fileName
  }

  /** The remux output path beside its input; the suffix is spelt as the handler spells it. */
  function FastStartPath(input: string): (out: string)
    ensures |out| > |input| && out[..|input|] == input
  {
    input + ".proccessed"
  }

  /** Distinct inputs get distinct outputs, and no output overwrites its own input. */
  lemma FastStartPathInjective(a: string, b: string)
    requires FastStartPath(a) == FastStartPath(b)
    ensures a == b
  {
    assert |a| == |b|;
    assert a == FastStartPath(a)[..|a|];
  }
}
