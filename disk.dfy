/**
 * The part of the disk the downloader touches, and the `os`, `shutil` and
 * `zipfile` calls it makes on it. A directory is a key of `Dirs` (its path)
 * holding the files directly inside it; a sub-directory is a key of its own
 * and is not listed among its parent's files.
 */
module Disk {
  import opened Util

  /** The files directly inside one directory, by name. */
  type Listing = map<string, Bytes>

  /** Every existing directory, by path, with its files. */
  type Dirs = map<string, Listing>

  /** An unpacked archive: the files at its top level and those of each top-level folder. */
  datatype ArchiveTree = ArchiveTree(files: Listing, folders: map<string, Listing>)

  /** Path `p` is `root` itself or lies somewhere below it. */
  predicate Within(p: string, root: string) {
    p == root || (|p| > |root| && p[..|root| + 1] == root + "/")
  }

  lemma JoinInjectiveAt(root: string, a: string, b: string)
    requires Join(root, a) == Join(root, b)
    ensures a == b
  {
    assert a == Join(root, a)[|root| + 1..];
    assert b == Join(root, b)[|root| + 1..];
  }

  lemma JoinIsWithin(root: string, name: string)
    ensures Within(Join(root, name), root) && Join(root, name) != root
  {
    assert Join(root, name)[..|root| + 1] == root + "/";
  }

  /** `shutil.move(src/name, dst/newName)`: the file leaves `src` and, under its new name, replaces or joins `dst`'s files. */
  function MoveEntry(d: Dirs, src: string, name: string, dst: string, newName: string): (r: Dirs)
    requires src in d && name in d[src] && dst in d
    ensures r.Keys == d.Keys
  {
    var v := d[src][name];
    var d1 := d[src := d[src] - {name}];
    d1[dst := d1[dst][newName := v]]
  }

  /** `shutil.rmtree(root)`: the directory and everything below it are gone. */
  function WithoutTree(d: Dirs, root: string): Dirs {
    map p | p in d && !Within(p, root) :: d[p]
  }

  /** A directory exists (created empty if it did not). */
  function EnsureDir(d: Dirs, p: string): Dirs {
    if p in d then d else d[p := map[]]
  }

  /** After `rmtree(root)` exactly the directories outside `root` remain, with their files. */
  lemma WithoutTreeAt(d: Dirs, root: string, p: string)
    ensures p in WithoutTree(d, root) <==> p in d && !Within(p, root)
    ensures p in WithoutTree(d, root) ==> WithoutTree(d, root)[p] == d[p]
  {
  }

  /** Making sure `p` exists adds it, empty, when it is missing and changes no existing directory. */
  lemma EnsureDirAt(d: Dirs, p: string, q: string)
    ensures q in EnsureDir(d, p) <==> q in d || q == p
    ensures q in d ==> EnsureDir(d, p)[q] == d[q]
    ensures q == p && p !in d ==> EnsureDir(d, p)[q] == map[]
  {
  }

  /** A file is written, replacing any file of that name. */
  function WriteEntry(d: Dirs, dir: string, name: string, data: Bytes): (r: Dirs)
    requires dir in d
    ensures r.Keys == d.Keys && name in r[dir] && r[dir][name] == data
  {
    d[dir := d[dir][name := data]]
  }

  /** `os.remove(dir/name)`. */
  function DeleteEntry(d: Dirs, dir: string, name: string): (r: Dirs)
    requires dir in d
    ensures r.Keys == d.Keys && name !in r[dir]
  {
    d[dir := d[dir] - {name}]
  }

  /** The files already in `p`, or none when it does not exist. */
  function FilesOf(d: Dirs, p: string): Listing {
    if p in d then d[p] else map[]
  }

  /** The directories `extractall(root)` makes for the archive's folders. */
  function FolderPaths(root: string, t: ArchiveTree): set<string> {
    set f | f in t.folders :: Join(root, f)
  }

  /** The folder a path below `root` names. */
  function FolderName(root: string, p: string): string
    requires |p| > |root|
  {
    p[|root| + 1..]
  }

  lemma FolderPathsNamed(root: string, t: ArchiveTree)
    ensures forall p :: p in FolderPaths(root, t) ==> |p| > |root| && FolderName(root, p) in t.folders
  {
    forall p | p in FolderPaths(root, t) ensures |p| > |root| && FolderName(root, p) in t.folders {
      var f :| f in t.folders && p == Join(root, f);
      assert FolderName(root, p) == f;
    }
  }

  /**
   * `extractall(root)`: the archive's top-level files are written into
   * `root`, and each folder is created below `root` (if needed) and filled.
   */
  function ExtractTree(d: Dirs, root: string, t: ArchiveTree): (r: Dirs)
    requires root in d
    ensures d.Keys <= r.Keys
  {
    FolderPathsNamed(root, t);
    var d1 := d[root := d[root] + t.files];
    d1 + map p | p in FolderPaths(root, t) :: FilesOf(d1, p) + t.folders[FolderName(root, p)]
  }

  /** `extractall(root)` at the directory of one folder. */
  lemma ExtractTreeAt(d: Dirs, root: string, t: ArchiveTree, f: string)
    requires root in d
    ensures var r := ExtractTree(d, root, t);
      && (Join(root, f) in r <==> Join(root, f) in d || f in t.folders)
      && (f in t.folders ==> r[Join(root, f)] == FilesOf(d, Join(root, f)) + t.folders[f])
      && (f !in t.folders && Join(root, f) in d ==> r[Join(root, f)] == d[Join(root, f)])
  {
    var p := Join(root, f);
    JoinIsWithin(root, f);
    assert FolderName(root, p) == f;
    if p in FolderPaths(root, t) {
      var g :| g in t.folders && p == Join(root, g);
      JoinInjectiveAt(root, g, f);
    }
    var d1 := d[root := d[root] + t.files];
    assert FilesOf(d1, p) == FilesOf(d, p);
  }

  /** `extractall(root)` adds the archive's top-level files to `root`. */
  lemma ExtractTreeRoot(d: Dirs, root: string, t: ArchiveTree)
    requires root in d
    ensures root in ExtractTree(d, root, t) && ExtractTree(d, root, t)[root] == d[root] + t.files
  {
    if root in FolderPaths(root, t) {
      var g :| g in t.folders && root == Join(root, g);
      JoinIsWithin(root, g);
    }
  }

  /** `extractall(root)` leaves a directory outside `root` alone. */
  lemma ExtractTreeOutside(d: Dirs, root: string, t: ArchiveTree, q: string)
    requires root in d && !Within(q, root)
    ensures (q in ExtractTree(d, root, t) <==> q in d)
    ensures q in d ==> ExtractTree(d, root, t)[q] == d[q]
  {
    if q in FolderPaths(root, t) {
      var g :| g in t.folders && q == Join(root, g);
      JoinIsWithin(root, g);
    }
  }

  /** The disk the program works on. */
  class FileSystem {
    var dirs: Dirs

    constructor (initial: Dirs)
      ensures dirs == initial
    {
      dirs := initial;
    }

    /** `os.listdir(path)`: each file name once, in an order nobody promises. */
    method ListDir(path: string) returns (names: seq<string>)
      requires path in dirs
      ensures forall n :: n in names <==> n in dirs[path]
      ensures forall i, j :: 0 <= i < j < |names| ==> names[i] != names[j]
    {
      names := [];
      var rest := dirs[path].Keys;
      while rest != {}
        invariant rest <= dirs[path].Keys
        invariant forall n :: n in names <==> n in dirs[path] && n !in rest
        invariant forall i, j :: 0 <= i < j < |names| ==> names[i] != names[j]
        decreases rest
      {
        var n :| n in rest;
        names := names + [n];
        rest := rest - {n};
      }
    }

    /** `os.path.isdir(path)` (and `os.path.exists` for a directory). */
    method IsDir(path: string) returns (b: bool)
      ensures b <==> path in dirs
    {
      b := path in dirs;
    }

    /** Reading a whole file, as `zipfile.ZipFile(path)` does. */
    method ReadFile(dir: string, name: string) returns (data: Bytes)
      requires dir in dirs && name in dirs[dir]
      ensures data == dirs[dir][name]
    {
      data := dirs[dir][name];
    }

    /** `os.path.exists(dir/name)` for a file. */
    method FileExists(dir: string, name: string) returns (b: bool)
      ensures b <==> dir in dirs && name in dirs[dir]
    {
      b := dir in dirs && name in dirs[dir];
    }

    method Move(src: string, name: string, dst: string, newName: string)
      requires src in dirs && name in dirs[src] && dst in dirs
      modifies this
      ensures dirs == MoveEntry(old(dirs), src, name, dst, newName)
    {
      dirs := MoveEntry(dirs, src, name, dst, newName);
    }

    method RemoveTree(root: string)
      modifies this
      ensures dirs == WithoutTree(old(dirs), root)
    {
      dirs := WithoutTree(dirs, root);
    }

    /** `os.makedirs(p)` without `exist_ok`: an existing `p` is an unhandled error. */
    method MakeDir(p: string)
      requires p !in dirs
      modifies this
      ensures dirs == old(dirs)[p := map[]]
    {
      dirs := dirs[p := map[]];
    }

    /** `os.makedirs(Join(parent, leaf), exist_ok=True)`. */
    method MakeDirsExistOk(parent: string, leaf: string)
      modifies this
      ensures dirs == EnsureDir(EnsureDir(old(dirs), parent), Join(parent, leaf))
    {
      dirs := EnsureDir(EnsureDir(dirs, parent), Join(parent, leaf));
    }

    method WriteFile(dir: string, name: string, data: Bytes)
      requires dir in dirs
      modifies this
      ensures dirs == WriteEntry(old(dirs), dir, name, data)
    {
      dirs := WriteEntry(dirs, dir, name, data);
    }

    method RemoveFile(dir: string, name: string)
      requires dir in dirs && name in dirs[dir]
      modifies this
      ensures dirs == DeleteEntry(old(dirs), dir, name)
    {
      dirs := DeleteEntry(dirs, dir, name);
    }

    method Extract(root: string, t: ArchiveTree)
      requires root in dirs
      modifies this
      ensures dirs == ExtractTree(old(dirs), root, t)
    {
      dirs := ExtractTree(dirs, root, t);
    }
  }
}
