/**
 * Locating the configuration file: a path buffer with Unix `push` semantics and
 * the join of the application's configuration directory with `tetris.json`.
 */
module Paths {
  import opened Wrappers

  const Sep: char := '/'
  const ConfigFileName: string := "tetris.json"

  /** The platform's directories for the application; only the configuration
      directory is used here. */
  datatype ProjectDirs = ProjectDirs(configDir: string)

  predicate IsAbsolute(p: string) {
    p != [] && p[0] == Sep
  }

  /** Where the last name segment of `p` starts: just after its last separator. */
  function SegmentStart(p: string): (k: nat)
    ensures k <= |p|
    ensures Sep !in p[k..]
    ensures k == 0 || p[k - 1] == Sep
    ensures p != [] && p[|p| - 1] != Sep ==> k < |p|
    decreases |p|
  {
    if p == [] || p[|p| - 1] == Sep then |p|
    else
      var k := SegmentStart(p[..|p| - 1]);
      assert p[k..] == p[..|p| - 1][k..] + [p[|p| - 1]];
      k
  }

  /** The name segments of a path, left to right: the separator-free pieces
      between separators; repeated and trailing separators add nothing. */
  function Components(p: string): (cs: seq<string>)
    ensures forall i :: 0 <= i < |cs| ==> cs[i] != [] && Sep !in cs[i]
    decreases |p|
  {
    if p == [] then []
    else if p[|p| - 1] == Sep then Components(p[..|p| - 1])
    else Components(p[..SegmentStart(p)]) + [p[SegmentStart(p)..]]
  }

  lemma {:induction false} SegmentStartAfterSep(x: string, y: string)
    requires x == [] || x[|x| - 1] == Sep
    ensures SegmentStart(x + y) == |x| + SegmentStart(y)
    decreases |y|
  {
    if y == [] {
      assert x + y == x;
    } else if y[|y| - 1] == Sep {
      assert (x + y)[|x + y| - 1] == Sep;
    } else {
      assert (x + y)[..|x + y| - 1] == x + y[..|y| - 1];
      SegmentStartAfterSep(x, y[..|y| - 1]);
    }
  }

  /** Joining at a separator concatenates the segment lists. */
  lemma {:induction false} ComponentsAfterSep(x: string, y: string)
    requires x == [] || x[|x| - 1] == Sep
    ensures Components(x + y) == Components(x) + Components(y)
    decreases |y|
  {
    if y == [] {
      assert x + y == x;
    } else if y[|y| - 1] == Sep {
      var y' := y[..|y| - 1];
      assert Components(x + y) == Components(x + y') by {
        assert (x + y)[..|x + y| - 1] == x + y';
      }
      ComponentsAfterSep(x, y');
    } else {
      var k := SegmentStart(y);
      assert Components(x + y) == Components(x + y[..k]) + [y[k..]] by {
        SegmentStartAfterSep(x, y);
        assert (x + y)[..|x| + k] == x + y[..k];
        assert (x + y)[|x| + k..] == y[k..];
      }
      ComponentsAfterSep(x, y[..k]);
    }
  }

  /** A non-empty name without separators is a path of exactly one segment. */
  lemma SingleComponent(name: string)
    requires name != [] && Sep !in name
    ensures Components(name) == [name]
  {
  }

  /**
   * `PathBuf::push` on Unix: an absolute `path` replaces the buffer; otherwise
   * `path` is appended, after a separator unless the buffer is empty or already
   * ends with one. A relative push keeps the buffer as a prefix and adds exactly
   * the pushed path's segments after the buffer's own.
   */
  function PushPath(buf: string, path: string): (r: string)
    ensures IsAbsolute(path) ==> r == path
    ensures !IsAbsolute(path) ==> buf <= r && Components(r) == Components(buf) + Components(path)
  {
    if IsAbsolute(path) then path
    else if buf != [] && buf[|buf| - 1] != Sep then
      var withSep := buf + [Sep];
      assert withSep[..|withSep| - 1] == buf;
      ComponentsAfterSep(withSep, path);
      assert withSep + path == buf + [Sep] + path;
      buf + [Sep] + path
    else
      ComponentsAfterSep(buf, path);
      buf + path
  }

  /** An owned, growable path. */
  class PathBuf {
    var inner: string

    constructor (s: string)
      ensures inner == s
    {
      inner := s;
    }

    method Push(path: string)
      modifies this
      ensures inner == PushPath(old(inner), path)
    {
      inner := PushPath(inner, path);
    }

    /** The path as text. Every Dafny string is valid text, so the conversion
        always succeeds and returns the buffer unchanged. */
    function ToStr(): (s: Option<string>)
      reads this
      ensures s.Some? && s.value == inner
    {
      Some(inner)
    }
  }

  /** The configuration file's location: the configuration directory with the
      single segment `tetris.json` added at the end, the directory kept as a prefix. */
  function ConfigLocation(configDir: string): (loc: string)
    ensures Components(loc) == Components(configDir) + [ConfigFileName]
    ensures configDir <= loc
    ensures |loc| >= |ConfigFileName| && loc[|loc| - |ConfigFileName|..] == ConfigFileName
  {
    SingleComponent(ConfigFileName);
    PushPath(configDir, ConfigFileName)
  }

  /** Copies the configuration directory into a path buffer, pushes the file
      name, and returns the buffer's text. */
  method GetConfigLocation(projectDir: ProjectDirs) returns (loc: string)
    ensures loc == ConfigLocation(projectDir.configDir)
    ensures Components(loc) == Components(projectDir.configDir) + [ConfigFileName]
  {
    var configPathBuf := new PathBuf(projectDir.configDir);
    configPathBuf.Push(ConfigFileName);
    loc := configPathBuf.ToStr().value;
  }
}
