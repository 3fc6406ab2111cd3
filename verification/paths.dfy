/** File and directory paths, kept as opaque strings.
    Only the properties the add-in relies on are modelled: joining a directory
    with a relative name keeps the directory as prefix and the name as suffix,
    and making a path absolute yields a rooted path and leaves rooted paths
    alone. Separator normalisation and `..` collapsing are not modelled. */
module Paths {

  datatype FilePath = FilePath(fullPath: string)

  datatype DirectoryPath = DirectoryPath(fullPath: string)

  predicate IsSeparator(c: char) {
    c == '/' || c == '\\'
  }

  /** A rooted path starts with a separator, or has a colon as its second
      character (a drive prefix such as `C:`; the first character is not checked). */
  predicate IsRooted(s: string) {
    || (|s| >= 1 && IsSeparator(s[0]))
    || (|s| >= 2 && s[1] == ':')
  }

  predicate EndsWith(s: string, suffix: string) {
    |suffix| <= |s| && s[|s| - |suffix|..] == suffix
  }

  /** Joins two path strings in the manner of `System.IO.Path.Combine`, for a
      non-empty name: a rooted second part replaces the first; otherwise exactly
      one separator sits between them. */
  function Join(a: string, b: string): (r: string)
    ensures IsRooted(b) || a == "" ==> r == b
    ensures !IsRooted(b) && a != "" ==> a <= r && |r| >= |a| + |b|
    ensures EndsWith(r, b)
    ensures IsRooted(a) || IsRooted(b) ==> IsRooted(r)
  {
    if IsRooted(b) || a == "" then b
    else if IsSeparator(a[|a| - 1]) then a + b
    else a + "/" + b
  }

  /** Joining onto a directory that already ends with a separator adds no separator. */
  lemma JoinAfterSeparator(a: string, b: string)
    requires a != "" && IsSeparator(a[|a| - 1]) && !IsRooted(b)
    ensures Join(a, b) == a + b
  {
  }

  /** A common suffix survives appending the same text to both sides. */
  lemma EndsWithAppend(s: string, t: string, u: string)
    requires EndsWith(s, t)
    ensures EndsWith(s + u, t + u)
  {
    var cut := |s| - |t|;
    assert (s + u)[cut..] == s[cut..] + u;
  }

  /** `DirectoryPath.Combine`: a sub-directory of `dir`. */
  function Combine(dir: DirectoryPath, sub: string): (r: DirectoryPath)
    ensures IsRooted(dir.fullPath) ==> IsRooted(r.fullPath)
    ensures !IsRooted(sub) ==> dir.fullPath <= r.fullPath
    ensures EndsWith(r.fullPath, sub)
  {
    DirectoryPath(Join(dir.fullPath, sub))
  }

  /** `DirectoryPath.CombineWithFilePath`: the file `name` inside `dir`. */
  function CombineWithFilePath(dir: DirectoryPath, name: string): (r: FilePath)
    ensures EndsWith(r.fullPath, name)
    ensures !IsRooted(name) && dir.fullPath != "" && name != "" ==> dir.fullPath < r.fullPath
  {
    FilePath(Join(dir.fullPath, name))
  }

  predicate IsRelative(p: FilePath) {
    !IsRooted(p.fullPath)
  }

  /** `FilePath.MakeAbsolute`: a relative path is resolved against the working
      directory; a rooted path is returned as it is. */
  function MakeAbsolute(p: FilePath, workingDirectory: DirectoryPath): (r: FilePath)
    ensures !IsRelative(p) ==> r == p
    ensures IsRooted(workingDirectory.fullPath) ==> !IsRelative(r)
    ensures EndsWith(r.fullPath, p.fullPath)
  {
    if IsRelative(p) then FilePath(Join(workingDirectory.fullPath, p.fullPath)) else p
  }

  /** Making a path absolute twice is the same as once, provided the working
      directory is itself rooted. The runner relies on this: it makes the path
      absolute in `Run` and again while building the arguments. */
  lemma MakeAbsoluteIdempotent(p: FilePath, workingDirectory: DirectoryPath)
    requires IsRooted(workingDirectory.fullPath)
    ensures MakeAbsolute(MakeAbsolute(p, workingDirectory), workingDirectory)
         == MakeAbsolute(p, workingDirectory)
  {
  }
}
