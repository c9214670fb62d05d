/** Model of utils.py: the process exit of error_output, the parent-directory
    derivation of create_parents and the create-if-missing step on a model
    of the filesystem. */
module Utils {

  datatype Option<T> = None | Some(value: T)

  /** What an operation of the scraper yields: a value, or the exit that
      error_output performs (it reports the message and ends the process, so
      nothing after it runs). */
  datatype Outcome<T> = Ok(value: T) | Exit(msg: string)

  /** Position of the last `c` in `s`, as str.rfind finds it. */
  function LastIndexOf(s: string, c: char): (r: Option<nat>)
    ensures r.None? <==> c !in s
    ensures r.Some? ==> r.value < |s| && s[r.value] == c && c !in s[r.value + 1..]
  {
    if |s| == 0 then None
    else if s[|s| - 1] == c then Some(|s| - 1)
    else
      var r := LastIndexOf(s[..|s| - 1], c);
      assert s == s[..|s| - 1] + [s[|s| - 1]];
      if r.Some? then
        assert s[r.value + 1..] == s[..|s| - 1][r.value + 1..] + [s[|s| - 1]];
        r
      else r
  }

  /** The directory create_parents works on: the part of `path` strictly before
      its last backslash when the path holds a backslash and does not end in
      one, and the whole path otherwise. */
  function ParentDir(path: string): (dir: string)
    ensures dir <= path
    ensures '\\' in path && path[|path| - 1] != '\\' ==>
              |dir| < |path| && path[|dir|] == '\\' && '\\' !in path[|dir| + 1..]
    ensures !('\\' in path && path[|path| - 1] != '\\') ==> dir == path
  {
    if '\\' in path && path[|path| - 1] != '\\' then
      path[..LastIndexOf(path, '\\').value]
    else path
  }

  /** Text without `c` appended after `a` leaves the last `c` where it was. */
  lemma {:induction false} LastIndexOfAppend(a: string, b: string, c: char)
    requires c !in b
    ensures LastIndexOf(a + b, c) == LastIndexOf(a, c)
    decreases |b|
  {
    if |b| > 0 {
      var s := a + b;
      assert s[|s| - 1] == b[|b| - 1];
      assert s[..|s| - 1] == a + b[..|b| - 1];
      LastIndexOfAppend(a, b[..|b| - 1], c);
    } else {
      assert a + b == a;
    }
  }

  /** The parent of a file path `folder\name` is `folder` when the name
      holds no backslash. */
  lemma ParentDirOf(folder: string, name: string)
    requires name != "" && '\\' !in name
    ensures ParentDir(folder + "\\" + name) == folder
  {
    var path := folder + "\\" + name;
    assert LastIndexOf(folder + "\\", '\\') == Some(|folder|);
    LastIndexOfAppend(folder + "\\", name, '\\');
    assert path[|path| - 1] == name[|name| - 1];
    assert path[..|folder|] == folder;
  }

  /** os.path.exists: a directory or a file is present at `p`. */
  predicate Exists(dirs: set<string>, files: map<string, nat>, p: string)
  {
    p in dirs || p in files
  }

  /** create_parents on a filesystem of directories `dirs` and files `files`
      (path to size): the directories afterwards, or the exit. An empty path
      exits; os.path.exists('') is false and os.makedirs('') raises, so an
      empty parent exits too; an existing parent is left alone; otherwise
      os.makedirs creates it. */
  function MakeParents(dirs: set<string>, files: map<string, nat>, path: string): (r: Outcome<set<string>>)
    ensures path == "" ==> r.Exit?
    ensures ParentDir(path) == "" ==> r.Exit?
    ensures r.Ok? ==> dirs <= r.value && r.value - dirs <= {ParentDir(path)}
    ensures r.Ok? ==> Exists(r.value, files, ParentDir(path))
    ensures Exists(dirs, files, ParentDir(path)) && ParentDir(path) != "" ==> r == Ok(dirs)
    ensures path != "" && ParentDir(path) != "" ==> r.Ok?
  {
    if path == "" then Exit("Parent directory '' cannot be created")
    else
      var dir := ParentDir(path);
      if dir == "" then Exit("Parent directory '' cannot be created")
      else if Exists(dirs, files, dir) then Ok(dirs)
      else Ok(dirs + {dir})
  }

  /** A second create_parents on the same path changes nothing. */
  lemma CreateParentsIdempotent(dirs: set<string>, files: map<string, nat>, path: string)
    requires MakeParents(dirs, files, path).Ok?
    ensures MakeParents(MakeParents(dirs, files, path).value, files, path) == MakeParents(dirs, files, path)
  {
  }

  /** open(path, 'wb') succeeds when `path` is not a directory and its parent is one. */
  predicate CanWrite(dirs: set<string>, path: string)
  {
    path !in dirs && ParentDir(path) in dirs
  }

  /** The part of the filesystem the scraper touches, updated in place. */
  class FileSystem {
    var dirs: set<string>
    var files: map<string, nat>

    constructor (dirs0: set<string>, files0: map<string, nat>)
      ensures dirs == dirs0 && files == files0
    {
      dirs := dirs0;
      files := files0;
    }

    /** create_parents(path). */
    method CreateParents(path: string) returns (o: Outcome<()>)
      modifies this
      ensures files == old(files)
      ensures MakeParents(old(dirs), old(files), path).Ok? ==>
                o == Ok(()) && dirs == MakeParents(old(dirs), old(files), path).value
      ensures MakeParents(old(dirs), old(files), path).Exit? ==>
                o == Exit(MakeParents(old(dirs), old(files), path).msg) && dirs == old(dirs)
    {
      if path == "" {
        return Exit("Parent directory '' cannot be created");
      }
      var dir := ParentDir(path);
      if dir == "" {
        return Exit("Parent directory '' cannot be created");
      }
      if !Exists(dirs, files, dir) {
        dirs := dirs + {dir};
      }
      o := Ok(());
    }

    /** Writes a file of `size` bytes at `path`, replacing what was there;
        `written` is false, and nothing changes, when the open fails. */
    method Write(path: string, size: nat) returns (written: bool)
      modifies this
      ensures written == CanWrite(old(dirs), path)
      ensures dirs == old(dirs)
      ensures files == if written then old(files)[path := size] else old(files)
    {
      written := CanWrite(dirs, path);
      if written {
        files := files[path := size];
      }
    }
  }
}
