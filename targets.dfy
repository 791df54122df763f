/**
 * Where each selected local entry goes on the server, and whether the
 * connection is encrypted.
 */
module Targets {
  import opened Paths

  /**
   * The URL scheme, as `url.parse` reports it, that selects FTP over TLS: the
   * `secure` connection option is on exactly for this scheme.
   */
  const FtpsProtocol: string := "ftps:"

  /**
   * The remote path of a local entry: with `flatten` the entry's basename directly
   * under `remotePath`; otherwise the entry's path with the first `|rootFolder|`
   * characters cut off (nothing left when the entry is no longer than the root),
   * joined onto `remotePath`. The result is a normalized path, absolute exactly
   * when `remotePath` is.
   */
  function RemoteFile(remotePath: string, rootFolder: string, flatten: bool, file: string): (r: string)
    ensures r != ""
    ensures remotePath != "" ==> (IsAbsolute(r) <==> IsAbsolute(remotePath))
    ensures flatten ==> r == Join(remotePath, Basename(file))
    ensures !flatten && |rootFolder| <= |file| ==> r == Join(remotePath, file[|rootFolder|..])
    ensures !flatten && |file| <= |rootFolder| ==> r == Join(remotePath, "")
  {
    if flatten then Join(remotePath, Basename(file))
    else Join(remotePath, Substring(file, |rootFolder|))
  }

  /** `RemoteFile` for fixed inputs, as a map from entries to remote paths. */
  function RemoteFiles(remotePath: string, rootFolder: string, flatten: bool): (m: string -> string)
    ensures forall file :: m(file) == RemoteFile(remotePath, rootFolder, flatten, file)
  {
    file => RemoteFile(remotePath, rootFolder, flatten, file)
  }

  /** With `flatten`, the remote entry keeps the local entry's name. */
  lemma FlattenKeepsName(remotePath: string, rootFolder: string, file: string)
    requires IsName(Basename(file))
    ensures Basename(RemoteFile(remotePath, rootFolder, true, file)) == Basename(file)
  {
    BasenameOfJoin(remotePath, Basename(file));
  }

  /**
   * With `flatten`, the depth of a file does not matter: two entries with the same
   * name in different directories are sent to the same remote path.
   */
  lemma FlattenIgnoresDepth(remotePath: string, rootFolder: string, dir1: string, dir2: string, name: string)
    requires IsName(name)
    ensures RemoteFile(remotePath, rootFolder, true, dir1 + [Sep] + name)
         == RemoteFile(remotePath, rootFolder, true, dir2 + [Sep] + name)
    ensures RemoteFile(remotePath, rootFolder, true, dir1 + [Sep] + name) == Join(remotePath, name)
  {
    BasenameOfChild(dir1, name);
    BasenameOfChild(dir2, name);
  }

  /** Without `flatten`, an entry below the root keeps its path relative to the root. */
  lemma KeepsRelativePath(remotePath: string, rootFolder: string, rel: string)
    requires remotePath != "" && rel != ""
    ensures RemoteFile(remotePath, rootFolder, false, rootFolder + [Sep] + rel) == Join(remotePath, rel)
  {
    var file := rootFolder + [Sep] + rel;
    assert Substring(file, |rootFolder|) == [Sep] + rel;
    JoinIgnoresLeadingSep(remotePath, rel);
  }

  /** An entry directly inside the root gets the same remote path in both modes. */
  lemma DirectChildSameInBothModes(remotePath: string, rootFolder: string, name: string)
    requires remotePath != "" && IsName(name)
    ensures RemoteFile(remotePath, rootFolder, true, rootFolder + [Sep] + name)
         == RemoteFile(remotePath, rootFolder, false, rootFolder + [Sep] + name)
  {
    BasenameOfChild(rootFolder, name);
    KeepsRelativePath(remotePath, rootFolder, name);
  }

  /**
   * Without `flatten`, an entry no longer than the root itself (the root, or in
   * single-file mode the root file and its parent directory) is sent to the
   * remote root path itself.
   */
  lemma ShortEntryTargetsRemoteRoot(remotePath: string, rootFolder: string, file: string)
    requires remotePath != "" && |file| <= |rootFolder|
    ensures RemoteFile(remotePath, rootFolder, false, file) == Normalize(remotePath)
  {
  }
}
