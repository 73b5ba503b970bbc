/**
 * `SubMount`: a mount that exposes one directory of another mount. Every query is passed
 * to the parent with the path prefixed by the sub-directory.
 */
module SubMounts {
  import opened Wrappers

  /** `BasicFileAttributes`, reduced to what a mount reports. */
  datatype Attributes = Attributes(size: int, isDirectory: bool, creationTime: int, lastModifiedTime: int)

  /**
   * An `IMount`, as the answers it gives for each path; an `Err` is the `IOException` the
   * query throws. Concrete mounts are not part of this model.
   */
  datatype Mount = Mount(
    fileExists: string -> Result<bool>,
    isDirectory: string -> Result<bool>,
    list: string -> Result<seq<string>>,
    size: string -> Result<int>,
    openForRead: string -> Result<seq<bv8>>,
    attributes: string -> Result<Attributes>)

  /** `getFullPath`: the sub-directory itself for the empty path, otherwise the path below it. */
  function FullPath(subPath: string, path: string): (r: string)
    ensures subPath <= r
    ensures path == "" <==> |r| == |subPath|
    ensures path != "" ==> r[|subPath|] == '/' && r[|subPath| + 1..] == path
  {
    if path == "" then subPath else subPath + "/" + path
  }

  /** Distinct paths reach distinct paths of the parent. */
  lemma FullPathInjective(subPath: string, p: string, q: string)
    requires FullPath(subPath, p) == FullPath(subPath, q)
    ensures p == q
  {
    var r := FullPath(subPath, p);
    if p != "" && q != "" {
      assert p == r[|subPath| + 1..] == q;
    }
  }

  /** A full path below a full path: sub-directories join with a separator. */
  lemma FullPathNests(a: string, b: string, path: string)
    requires b != ""
    ensures FullPath(a, FullPath(b, path)) == FullPath(FullPath(a, b), path)
  {
    if path != "" {
      assert a + "/" + (b + "/" + path) == (a + "/" + b) + "/" + path;
    }
  }

  datatype SubMount = SubMount(parent: Mount, subPath: string) {
    /** `exists`. */
    function Exists(path: string): Result<bool> {
      parent.fileExists(FullPath(subPath, path))
    }

    /** `isDirectory`. */
    function IsDirectory(path: string): Result<bool> {
      parent.isDirectory(FullPath(subPath, path))
    }

    /** `list(path, contents)`: the parent's entries appended to `contents`. */
    function List(path: string, contents: seq<string>): Result<seq<string>> {
      match parent.list(FullPath(subPath, path))
      case Ok(entries) => Ok(contents + entries)
      case Err(e) => Err(e)
    }

    /** `getSize`. */
    function GetSize(path: string): Result<int> {
      parent.size(FullPath(subPath, path))
    }

    /** `openForRead`: the channel's contents. */
    function OpenForRead(path: string): Result<seq<bv8>> {
      parent.openForRead(FullPath(subPath, path))
    }

    /** `getAttributes`. */
    function GetAttributes(path: string): Result<Attributes> {
      parent.attributes(FullPath(subPath, path))
    }

    /** This sub-mount seen as a mount in its own right. */
    function AsMount(): Mount {
      Mount(
        p => Exists(p),
        p => IsDirectory(p),
        p => List(p, []),
        p => GetSize(p),
        p => OpenForRead(p),
        p => GetAttributes(p))
    }
  }

  /**
   * The six queries answer exactly what the parent answers at the mapped path: a
   * sub-mount of a sub-mount behaves, query for query, as one sub-mount of the joined
   * directory, and the root of the sub-mount is the sub-directory of the parent.
   */
  lemma SubMountsCompose(parent: Mount, a: string, b: string, path: string)
    requires b != ""
    ensures var nested, joined := SubMount(SubMount(parent, a).AsMount(), b), SubMount(parent, FullPath(a, b));
      && nested.Exists(path) == joined.Exists(path)
      && nested.IsDirectory(path) == joined.IsDirectory(path)
      && nested.List(path, []) == joined.List(path, [])
      && nested.GetSize(path) == joined.GetSize(path)
      && nested.OpenForRead(path) == joined.OpenForRead(path)
      && nested.GetAttributes(path) == joined.GetAttributes(path)
  {
    FullPathNests(a, b, path);
    var full := FullPath(a, FullPath(b, path));
    match parent.list(full)
    case Ok(entries) => assert [] + ([] + entries) == [] + entries;
    case Err(_) =>
  }

  /** The root of a sub-mount is its sub-directory: the empty path queries the parent at `subPath`. */
  lemma RootIsSubPath(m: SubMount)
    ensures m.Exists("") == m.parent.fileExists(m.subPath)
    ensures m.List("", []) == m.parent.list(m.subPath)
  {
    match m.parent.list(m.subPath)
    case Ok(entries) => assert [] + entries == entries;
    case Err(_) =>
  }
}
