/** `RoArchive::Detail`, the part every backend shares. */
module ArchiveDetail {
  import opened Paths

  /** The backend's root path and whether its files can be reached directly
      on the filesystem. Neither changes once the backend is built, except
      that the HTTP backend re-points its root when a hint is applied. */
  datatype Detail = Detail(path: Path, directio: bool)

  /** The constructor: the root is stored as given, and direct access is off
      unless the backend asks for it. */
  function NewDetail(path: Path, directio: bool := false): (d: Detail)
    ensures d.path == path
    ensures d.directio == directio
  {
    Detail(path, directio)
  }
}
