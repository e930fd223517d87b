/**
 * The file system as the danmaku code sees it through `java.io.File`: existence and
 * readability checks, directory listings, absolute paths, and opening a file for the XML
 * parser. Paths use `/` as the separator.
 */
module Files {
  import opened Wrappers
  import opened Text
  import opened BiliXml

  /** One entry of a directory listing. */
  datatype FileEntry = FileEntry(name: string, absolutePath: string, isFile: bool, canRead: bool)

  /**
   * `open(path)` is `None` when opening the stream fails with an I/O error, and otherwise the
   * document the pull parser would see.
   */
  datatype FileSystem = FileSystem(
    isPresent: string -> bool,
    canRead: string -> bool,
    isDirectory: string -> bool,
    absolutePath: string -> string,
    listFiles: string -> Option<seq<FileEntry>>,
    open: string -> Option<XmlDoc>)

  /** `File.getName()`: the text after the last separator. */
  function FileName(path: string): (name: string)
    ensures '/' !in name && EndsWith(path, name)
    ensures '/' !in path ==> name == path
    ensures '/' in path ==> |name| < |path| && path[|path| - |name| - 1] == '/'
  {
    path[LastIndexOf(path, '/') + 1..]
  }

  /**
   * `File.getParent()`: the text before the last separator; the root for a file directly under
   * it; nothing for a name without a separator or for the root itself.
   */
  function ParentOf(path: string): (parent: Option<string>)
    ensures '/' !in path ==> parent.None?
    ensures '/' in path && |path| > 1 ==> parent.Some?
    ensures parent.Some? ==> path == parent.value + "/" + FileName(path)
                             || (parent.value == "/" && path == "/" + FileName(path))
  {
    var index := LastIndexOf(path, '/');
    if index < 0 then None
    else if index == 0 then (if |path| > 1 then Some("/") else None)
    else Some(path[..index])
  }
}
