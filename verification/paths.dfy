/**
 * The part of Python's POSIX `os.path.join` that the run manager uses:
 * joining a folder and one file name.
 */
module Paths {

  /** A path is absolute when it starts with the separator. */
  predicate IsAbsolute(path: string) {
    |path| > 0 && path[0] == '/'
  }

  /** What `join` puts in front of a relative second part: the first part,
      followed by a separator unless it is empty or already ends in one. */
  function DirPrefix(folder: string): string {
    if folder == [] || folder[|folder| - 1] == '/' then folder else folder + "/"
  }

  /** `os.path.join(folder, name)`: an absolute `name` replaces the folder. */
  function Join(folder: string, name: string): (r: string)
    ensures IsAbsolute(name) ==> r == name
    ensures !IsAbsolute(name) ==> folder <= r && |name| <= |r| && r[|r| - |name|..] == name
    ensures !IsAbsolute(name) && folder != [] ==> |name| < |r| && r[|r| - |name| - 1] == '/'
    // Nothing lies between the folder, its separator and the name.
    ensures !IsAbsolute(name) ==> |r| == |DirPrefix(folder)| + |name|
  {
    if IsAbsolute(name) then name else DirPrefix(folder) + name
  }

  /** Under a relative folder, distinct option names are stored at distinct paths. */
  lemma JoinInjective(folder: string, x: string, y: string)
    requires !IsAbsolute(folder)
    requires Join(folder, x) == Join(folder, y)
    ensures x == y
  {
    // When both names are absolute they are the joined paths themselves;
    // when exactly one is, the joined paths differ in their first character.
    if !IsAbsolute(x) && !IsAbsolute(y) {
      var pre := DirPrefix(folder);
      assert x == (pre + x)[|pre|..];
      assert y == (pre + y)[|pre|..];
    }
  }
}
