/** Outcomes of the archive operations. The library reports failure by
    throwing; here every operation that can throw returns a `Result`, and
    `Error` names which throw was taken. */
module Errors {
  import opened Paths

  datatype Option<+T> = None | Some(value: T)

  /** The exceptions the core throws, one constructor per throw site kind. */
  datatype Error =
      /** the tarball holds no member whose file name is the hint */
    | HintNotFound(hint: string, archive: Path)
      /** a tarball index lookup missed */
    | FileNotFound(file: Path, archive: Path)
      /** the content type is none of the supported ones */
    | UnsupportedArchiveType(mime: string)
      /** the zip backend cannot be constructed at all */
    | ZipUnimplemented
      /** an HTTP fetch answered "not found" */
    | NoSuchFile(uri: Path)
      /** any other HTTP fetch failure */
    | IOError(uri: Path)
      /** an operation the backend does not support */
    | NotImplemented(operation: string)
      /** a stream could not seek (std::ios_base failure) */
    | StreamFailure

  datatype Result<+T> = Success(value: T) | Failure(error: Error)
}
