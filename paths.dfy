/**
  The generator's options and the include-path builder `generateFileName`:
  a header name, optionally placed under the library directory given on the
  command line.
 */
module Paths {
  import opened Optional

  /**
    The parsed command line: the class name and the five options. Each
    optional string is `None` when its option was not given; the two flags
    are false when absent.
   */
  datatype Options = Options(
    className: string,
    namespace: Option<string>,
    library: Option<string>,
    precompiled: bool,
    virtual: bool,
    base: Option<string>)

  /** `generateFileName`: `<library>/<name>.h` when a library is set, `<name>.h` otherwise. */
  function GenerateFileName(p: Options, name: string): (path: string)
    ensures |path| >= 2 && path[|path| - 2..] == ".h"
    ensures p.library.None? ==> path[..|path| - 2] == name
    ensures p.library.Some? ==>
      var lib := p.library.value;
      |path| == |lib| + |name| + 3 && path[..|lib|] == lib && path[|lib|] == '/' &&
      path[|lib| + 1..|path| - 2] == name
  {
    if p.library.Some? then p.library.value + "/" + name + ".h" else name + ".h"
  }

  /** Index of the last `/` in `s`, if any. */
  function LastSlash(s: string): (r: Option<nat>)
    ensures r.None? ==> '/' !in s
    ensures r.Some? ==> r.value < |s| && s[r.value] == '/' && '/' !in s[r.value + 1..]
  {
    if s == [] then None
    else if s[|s| - 1] == '/' then Some(|s| - 1)
    else
      var r := LastSlash(s[..|s| - 1]);
      assert s == s[..|s| - 1] + [s[|s| - 1]];
      r
  }

  /**
    Reads an include path back into its library directory (everything before
    the last `/`) and its header stem; `None` when it does not end in `.h`.
   */
  function SplitIncludePath(path: string): Option<(Option<string>, string)> {
    if |path| < 2 || path[|path| - 2..] != ".h" then None
    else
      var stem := path[..|path| - 2];
      match LastSlash(stem)
      case None => Some((None, stem))
      case Some(i) => Some((Some(stem[..i]), stem[i + 1..]))
  }

  /**
    For a header stem without `/` (every stem the generator derives from a
    class name without `/`), the include path gives back both the library
    option and the stem: no two different (library, stem) pairs share a path.
   */
  lemma IncludePathRoundTrip(p: Options, name: string)
    requires '/' !in name
    ensures SplitIncludePath(GenerateFileName(p, name)) == Some((p.library, name))
  {
    var path := GenerateFileName(p, name);
    var stem := path[..|path| - 2];
    if p.library.Some? {
      var lib := p.library.value;
      assert stem == lib + "/" + name;
      var k := |lib|;
      assert stem[k] == '/';
      var i := LastSlash(stem).value;
      assert forall j :: i < j < |stem| ==> stem[j] == stem[i + 1..][j - i - 1];
      assert forall j :: k < j < |stem| ==> stem[j] == name[j - k - 1];
      assert i == k;
      assert stem[..k] == lib;
      assert stem[k + 1..] == name;
    } else {
      assert stem == name;
    }
  }

  /** Two options records with different libraries, or two different stems, never give the same include path. */
  lemma IncludePathInjective(p: Options, name: string, q: Options, other: string)
    requires '/' !in name && '/' !in other
    requires GenerateFileName(p, name) == GenerateFileName(q, other)
    ensures p.library == q.library && name == other
  {
    IncludePathRoundTrip(p, name);
    IncludePathRoundTrip(q, other);
  }
}
