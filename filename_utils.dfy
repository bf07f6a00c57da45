/** The part of Apache commons-io FilenameUtils that the LaTeX image renderer
    calls: `getName`, the file name after the last path separator. */
module FilenameUtils {

  /** Unix and Windows separators. */
  predicate IsSeparator(c: char) {
    c == '/' || c == '\\'
  }

  /** `getName(path)`: the suffix of `path` after its last `/` or `\`, or
      the whole path when it holds neither. */
  function BaseName(path: string): (name: string)
    ensures |name| <= |path| && path[|path| - |name|..] == name
    ensures forall j :: 0 <= j < |name| ==> !IsSeparator(name[j])
    ensures |name| < |path| ==> IsSeparator(path[|path| - |name| - 1])
  {
    if |path| == 0 || IsSeparator(path[|path| - 1]) then ""
    else BaseName(path[..|path| - 1]) + [path[|path| - 1]]
  }

  /** Directories in front of the file name do not change it. */
  lemma {:induction false} BaseNameIgnoresDirectory(dir: string, name: string)
    requires forall j :: 0 <= j < |name| ==> !IsSeparator(name[j])
    ensures BaseName(dir + "/" + name) == name
  {
    var path := dir + "/" + name;
    if |name| > 0 {
      assert path[..|path| - 1] == dir + "/" + name[..|name| - 1];
      BaseNameIgnoresDirectory(dir, name[..|name| - 1]);
      assert name == name[..|name| - 1] + [name[|name| - 1]];
    }
  }
}
