/**
 * The part of the file system the core touches: POSIX `os.path.join` and
 * `os.path.basename`, and a store of files (path to contents) that
 * `os.rename` and `open(..., "w")` change.
 */
module Fs {
  import opened Wrappers

  /** What `os.path.join` puts before a relative name: `dir`, with a `/` unless it ends in one. */
  function DirPrefix(dir: string): string {
    if dir == [] || dir[|dir| - 1] == '/' then dir else dir + "/"
  }

  /** `os.path.join(dir, name)`: an absolute `name` replaces `dir`. */
  function PathJoin(dir: string, name: string): (r: string)
    ensures |r| >= |name| && r[|r| - |name|..] == name
  {
    if name != [] && name[0] == '/' then name else DirPrefix(dir) + name
  }

  /** Two different names joined onto one directory never give the same path. */
  lemma PathJoinInjective(dir: string, a: string, b: string)
    requires a == [] || a[0] != '/'
    requires b == [] || b[0] != '/'
    requires PathJoin(dir, a) == PathJoin(dir, b)
    ensures a == b
  {
    var pre := DirPrefix(dir);
    assert a == (pre + a)[|pre|..];
    assert b == (pre + b)[|pre|..];
  }

  /** `os.path.basename(p)`: what follows the last `/`. */
  function Basename(p: string): (r: string)
    ensures '/' !in r
    ensures |r| <= |p| && p[|p| - |r|..] == r
    ensures |r| < |p| ==> p[|p| - |r| - 1] == '/'
  {
    if p == [] || p[|p| - 1] == '/' then []
    else Basename(p[..|p| - 1]) + [p[|p| - 1]]
  }

  /** The files after `os.rename(source, target)` when `source` exists. */
  function Renamed(files: map<string, string>, source: string, target: string): map<string, string>
    requires source in files
  {
    (files - {source})[target := files[source]]
  }

  /**
   * A rename moves one file: the source is gone, the target holds its
   * contents, and every other file is untouched.
   */
  lemma RenameMovesOneFile(files: map<string, string>, source: string, target: string)
    requires source in files && source != target
    ensures var r := Renamed(files, source, target);
      && source !in r
      && target in r && r[target] == files[source]
      && forall f :: f != source && f != target ==> (f in r <==> f in files) && (f in r ==> r[f] == files[f])
  {
  }

  /** The files written so far: path to contents. */
  class FileStore {
    var files: map<string, string>

    constructor (files: map<string, string>)
      ensures this.files == files
    {
      this.files := files;
    }

    /** `open(path, "w")` followed by `write(contents)`. */
    method Write(path: string, contents: string)
      modifies this
      ensures files == old(files)[path := contents]
    {
      files := files[path := contents];
    }

    /** The files an external collaborator wrote, laid over the existing ones. */
    method WriteAll(written: map<string, string>)
      modifies this
      ensures files == old(files) + written
    {
      files := files + written;
    }

    /** `os.rename(source, target)`; fails when `source` does not exist. */
    method Rename(source: string, target: string) returns (ok: bool)
      modifies this
      ensures ok <==> source in old(files)
      ensures ok ==> files == Renamed(old(files), source, target)
      ensures !ok ==> files == old(files)
    {
      ok := source in files;
      if ok {
        files := (files - {source})[target := files[source]];
      }
    }
  }
}
