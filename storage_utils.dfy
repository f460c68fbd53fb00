/** The local file storage under `<cwd>/storage`: uploads land under "/temp", and
    `move_temp_file` promotes them by dropping that prefix. The filesystem is the set
    of the absolute paths of its files; directories are implicit. */
module StorageUtils {

  import opened Common
  import opened PyStr

  const TempNotFound := "Temp file is not found"
  const FileNotFoundMessage := "File is not found"

  /** `posixpath.join(a, b)`. */
  function PathJoin(a: string, b: string): string
  {
    if |b| > 0 && b[0] == '/' then b
    else if a == "" || a[|a| - 1] == '/' then a + b
    else a + "/" + b
  }

  /** `s.rfind(c)`: the last position of `c`, or -1. */
  function RFind(s: string, c: char): (r: int)
    ensures -1 <= r < |s|
    ensures r >= 0 ==> s[r] == c
    ensures forall i :: r < i < |s| ==> s[i] != c
    decreases |s|
  {
    if |s| == 0 then -1
    else if s[|s| - 1] == c then |s| - 1
    else RFind(s[..|s| - 1], c)
  }

  /** `os.path.splitext(p)[1]`: the text from the last "." on, when that dot lies in
      the last path component and some character other than "." precedes it there;
      otherwise "". */
  function SplitExt(p: string): (ext: string)
    ensures ext != "" ==> ext[0] == '.' && '.' !in ext[1..] && '/' !in ext
    ensures ext != "" ==> |ext| <= |p| && p[|p| - |ext|..] == ext
  {
    var sep := RFind(p, '/');
    var dot := RFind(p, '.');
    if dot > sep && exists i :: sep + 1 <= i < dot && p[i] != '.' then
      assert forall k :: 0 <= k < |p[dot..]| ==> p[dot..][k] == p[dot + k];
      p[dot..]
    else ""
  }

  /** The name `save_file` gives the upload: the generated `uuid` followed by the
      extension of the original file name. */
  function SaveName(filename: string, uuid: string): (name: string)
    ensures |uuid| > 0 && uuid[0] != '/' ==> |name| > 0 && name[0] != '/'
  {
    uuid + SplitExt(filename)
  }

  /** `PathJoin` of a relative second part: one "/" between the parts unless the
      first already ends with one. */
  lemma JoinRelative(a: string, b: string)
    requires |b| > 0 && b[0] != '/'
    ensures PathJoin(a, b) == if a == "" || a[|a| - 1] == '/' then a + b else a + "/" + b
  {
  }

  /** What follows "temp/" in `PathJoin(PathJoin(cwd, "storage/temp/" + path), name)`. */
  function JoinTail(path: string, name: string): string
  {
    if path == "" || path[|path| - 1] == '/' then path + name else path + "/" + name
  }

  /** Joining a relative name onto a directory `d` + `path`, where `d` ends in "/",
      adds `JoinTail(path, name)` after `d`. */
  lemma JoinBelow(d: string, path: string, name: string)
    requires |d| > 0 && d[|d| - 1] == '/'
    requires |name| > 0 && name[0] != '/'
    ensures PathJoin(d + path, name) == d + JoinTail(path, name)
  {
    var dir := d + path;
    if path == "" {
      assert dir == d;
    } else {
      assert dir[|dir| - 1] == path[|path| - 1];
      if path[|path| - 1] == '/' {
        assert d + path + name == d + (path + name);
      } else {
        assert d + path + "/" + name == d + (path + "/" + name);
      }
    }
  }

  /** The destination of an upload below a working directory other than "/". */
  lemma DestinationBelowCwd(cwd: string, path: string, name: string)
    requires |cwd| > 0 && cwd[|cwd| - 1] != '/'
    requires |name| > 0 && name[0] != '/'
    ensures PathJoin(PathJoin(cwd, "storage/temp/" + path), name) == (cwd + "/storage") + ("/temp/" + JoinTail(path, name))
  {
    var d := cwd + "/storage/temp/";
    assert PathJoin(cwd, "storage/temp/" + path) == d + path;
    JoinBelow(d, path, name);
    var t := JoinTail(path, name);
    assert d + t == (cwd + "/storage") + ("/temp/" + t);
  }

  /** A path below "/storage/temp/" starts neither with "//storage" nor with "/temp". */
  lemma RootPrefixes(t: string)
    ensures StartsWith("/storage/temp/" + t, "/storage/temp/")
    ensures !StartsWith("/storage/temp/" + t, "//storage")
    ensures !StartsWith("/storage/temp/" + t, "/temp")
  {
    var p := "/storage/temp/" + t;
    assert p[1] == 's';
    assert p[..14] == "/storage/temp/";
  }

  /** The destination of an upload when the working directory is "/". */
  lemma DestinationAtRoot(path: string, name: string)
    requires |name| > 0 && name[0] != '/'
    ensures PathJoin(PathJoin("/", "storage/temp/" + path), name) == "/storage/temp/" + JoinTail(path, name)
  {
    assert PathJoin("/", "storage/temp/" + path) == "/storage/temp/" + path;
    JoinBelow("/storage/temp/", path, name);
  }

  /** A storage rooted at the process's working directory `cwd`. */
  class LocalStorage {
    const cwd: string
    var files: set<string>

    /** `os.getcwd()` is absolute and normalised: no trailing "/" except for the root. */
    ghost predicate Valid()
    {
      |cwd| > 0 && cwd[0] == '/' && (cwd == "/" || cwd[|cwd| - 1] != '/')
    }

    constructor (cwd: string, files: set<string>)
      requires |cwd| > 0 && cwd[0] == '/' && (cwd == "/" || cwd[|cwd| - 1] != '/')
      ensures Valid() && this.cwd == cwd && this.files == files
    {
      this.cwd := cwd;
      this.files := files;
    }

    /** `os.path.join(os.getcwd(), "storage")`. */
    function Root(): string
    {
      PathJoin(cwd, "storage")
    }

    /** `get_full_path(path)`: the storage root followed by the path as given. */
    function GetFullPath(path: string): (r: string)
      requires Valid()
      ensures cwd != "/" ==> r == cwd + "/storage" + path
      ensures cwd == "/" ==> r == "/storage" + path
    {
      Root() + path
    }

    /** `is_file_exist(path)`: the full path of `path` is a file. */
    predicate IsFileExist(path: string)
      requires Valid()
      reads this
    {
      GetFullPath(path) in files
    }

    /** The directory `save_file` writes into. */
    function UploadDir(path: string): string
    {
      PathJoin(cwd, "storage/temp/" + path)
    }

    /** The absolute path `save_file` writes, for the generated name `uuid`. */
    function SaveDestination(path: string, filename: string, uuid: string): string
    {
      PathJoin(UploadDir(path), SaveName(filename, uuid))
    }

    /** The path `save_file` returns: the destination without `cwd + "/storage"`. */
    function SavedPath(path: string, filename: string, uuid: string): string
    {
      RemovePrefix(SaveDestination(path, filename, uuid), cwd + "/storage")
    }

    /** `save_file(path, file)`, the random `uuid4()` name given as `uuid`: writes the
        upload under "temp/<path>" with the original extension. */
    method SaveFile(path: string, filename: string, uuid: string) returns (r: string)
      requires Valid()
      modifies this
      ensures files == old(files) + {SaveDestination(path, filename, uuid)}
      ensures r == SavedPath(path, filename, uuid)
    {
      var uploadDir := PathJoin(cwd, "storage/temp/" + path);
      var extension := SplitExt(filename);
      var fileName := uuid + extension;
      assert fileName == SaveName(filename, uuid);
      var dest := PathJoin(uploadDir, fileName);
      files := files + {dest};
      r := RemovePrefix(dest, cwd + "/storage");
    }

    /** Below any working directory but "/", the saved path lies under "/temp/" and
        leads back to the written file. */
    lemma SavedPathIsTemp(path: string, filename: string, uuid: string)
      requires Valid() && cwd != "/"
      requires |uuid| > 0 && uuid[0] != '/'
      ensures StartsWith(SavedPath(path, filename, uuid), "/temp/")
      ensures GetFullPath(SavedPath(path, filename, uuid)) == SaveDestination(path, filename, uuid)
    {
      var name := SaveName(filename, uuid);
      var tail := "/temp/" + JoinTail(path, name);
      DestinationBelowCwd(cwd, path, name);
      assert SaveDestination(path, filename, uuid) == (cwd + "/storage") + tail;
      PrefixOfConcat(cwd + "/storage", tail);
      PrefixOfConcat("/temp/", JoinTail(path, name));
    }

    /** With "/" as working directory the prefix `save_file` strips, "//storage", is
        not there, so the returned path is absolute and fails the "/temp" check. */
    lemma SavedPathAtRoot(path: string, filename: string, uuid: string)
      requires Valid() && cwd == "/"
      requires |uuid| > 0 && uuid[0] != '/'
      ensures StartsWith(SavedPath(path, filename, uuid), "/storage/temp/")
      ensures !StartsWith(SavedPath(path, filename, uuid), "/temp")
    {
      var name := SaveName(filename, uuid);
      var dest := SaveDestination(path, filename, uuid);
      DestinationAtRoot(path, name);
      assert dest == "/storage/temp/" + JoinTail(path, name);
      RootPrefixes(JoinTail(path, name));
      assert cwd + "/storage" == "//storage";
      assert SavedPath(path, filename, uuid) == dest;
    }

    /** `move_file(from_path, to_path)`: `shutil.move` of the file under the storage
        root; it fails when the source is missing. */
    method MoveFile(fromPath: string, toPath: string) returns (o: Outcome)
      requires Valid()
      modifies this
      ensures o.Pass? <==> GetFullPath(fromPath) in old(files)
      ensures o.Pass? ==> files == old(files) - {GetFullPath(fromPath)} + {GetFullPath(toPath)}
      ensures o.Fail? ==> o.error == FileNotFound && files == old(files)
    {
      var source := Root() + fromPath;
      var target := Root() + toPath;
      if source !in files {
        return Fail(FileNotFound);
      }
      files := files - {source} + {target};
      o := Pass;
    }

    /** `move_temp_file(path)`: a path that starts with "/temp" and names a file is
        moved to the path without that prefix, which is returned. */
    method MoveTempFile(path: string) returns (r: Result<string>)
      requires Valid()
      modifies this
      ensures r.Ok? <==> StartsWith(path, "/temp") && GetFullPath(path) in old(files)
      ensures r.Ok? ==> r.value == path[5..]
      ensures r.Ok? ==> files == old(files) - {GetFullPath(path)} + {GetFullPath(r.value)}
      ensures r.Err? ==> r.error == InternalServerError(TempNotFound) && files == old(files)
    {
      FindZeroIffPrefix(path, "/temp");
      if Find(path, "/temp") != 0 {
        return Err(InternalServerError(TempNotFound));
      }
      if !IsFileExist(path) {
        return Err(InternalServerError(TempNotFound));
      }
      var target := RemovePrefix(path, "/temp");
      var moved := MoveFile(path, target);
      r := Ok(target);
    }

    /** `delete_file(path)`: removes an existing file; a missing one is refused. */
    method DeleteFile(path: string) returns (o: Outcome)
      requires Valid()
      modifies this
      ensures o.Pass? <==> GetFullPath(path) in old(files)
      ensures o.Pass? ==> files == old(files) - {GetFullPath(path)}
      ensures o.Fail? ==> o.error == InternalServerError(FileNotFoundMessage) && files == old(files)
    {
      if !IsFileExist(path) {
        return Fail(InternalServerError(FileNotFoundMessage));
      }
      files := files - {GetFullPath(path)};
      o := Pass;
    }
  }

  /** The prefix test is textual: "/temporary/x" passes it and becomes "orary/x". */
  lemma TemporaryIsTemp()
    ensures Find("/temporary/x", "/temp") == 0
    ensures RemovePrefix("/temporary/x", "/temp") == "orary/x"
  {
    FindZeroIffPrefix("/temporary/x", "/temp");
    assert "/temporary/x"[..5] == "/temp";
  }

  /** A text starts with each of its prefixes, and removing that prefix leaves the
      rest. */
  lemma PrefixOfConcat(a: string, b: string)
    ensures StartsWith(a + b, a)
    ensures RemovePrefix(a + b, a) == b
  {
    assert (a + b)[..|a|] == a;
    assert (a + b)[|a|..] == b;
  }
}
