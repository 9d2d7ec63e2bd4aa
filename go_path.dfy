/** `path/filepath.Base` and `path/filepath.Ext` for Unix paths (the separator is `/`). */
module GoPath {

  /** `path` without its trailing run of `/`. */
  function StripTrailingSlashes(path: string): (r: string)
    ensures |r| <= |path| && r == path[..|r|]
    ensures r == [] || r[|r| - 1] != '/'
    ensures forall k :: |r| <= k < |path| ==> path[k] == '/'
  {
    if path != [] && path[|path| - 1] == '/' then StripTrailingSlashes(path[..|path| - 1]) else path
  }

  /** What follows the last `/` of `path` (all of `path` when it has none). */
  function LastElement(path: string): (r: string)
    ensures |r| <= |path| && r == path[|path| - |r|..]
    ensures '/' !in r
    ensures |r| < |path| ==> path[|path| - |r| - 1] == '/'
  {
    if path == [] || path[|path| - 1] == '/' then []
    else LastElement(path[..|path| - 1]) + [path[|path| - 1]]
  }

  /** `filepath.Base`: the last element of the path, trailing slashes ignored;
      "." for the empty path and "/" for a path made only of slashes. */
  function Base(path: string): (r: string)
    ensures r != []
    ensures r == "/" || '/' !in r
    ensures path == [] ==> r == "."
    ensures path != [] && '/' !in path ==> r == path
    ensures path != [] && r != "/" ==>
      var t := StripTrailingSlashes(path); |r| <= |t| && t[|t| - |r|..] == r
    ensures path != [] && r != "/" ==>
      var t := StripTrailingSlashes(path); |r| == |t| || t[|t| - |r| - 1] == '/'
  {
    if path == [] then "."
    else
      var t := StripTrailingSlashes(path);
      if t == [] then "/"
      else
        LastElement(t)
  }

  /** `filepath.Ext`: the suffix from the final `.` of the last path element, or "" if it has none. */
  function Ext(path: string): (r: string)
    ensures |r| <= |path| && r == path[|path| - |r|..]
    ensures r == [] || (r[0] == '.' && '.' !in r[1..] && '/' !in r)
    ensures r == [] ==> '.' !in LastElement(path)
  {
    if path == [] || path[|path| - 1] == '/' then ""
    else if path[|path| - 1] == '.' then "."
    else
      var e := Ext(path[..|path| - 1]);
      if e == [] then [] else e + [path[|path| - 1]]
  }

  /** A last element without a dot has no extension. */
  lemma {:induction false} ExtWithoutDot(path: string)
    requires '.' !in path
    ensures Ext(path) == ""
  {
    if path != [] && path[|path| - 1] != '/' {
      ExtWithoutDot(path[..|path| - 1]);
    }
  }
}
