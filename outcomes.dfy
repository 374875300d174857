/** The exceptions the two scripts can raise or exit with, and the failure-compatible wrappers that carry them. */
module Outcomes {
  import opened Paths

  datatype Error =
    | HttpError(status: int)             // `raise_for_status` on an error status
    | NoAssetWithSuffix(suffix: string)  // the `Exception` raised when no asset name ends with the suffix
    | RateLimited                        // `sys.exit(1)` after a 403 response mentioning "rate limit"
    | ConnectionFailed(url: string)      // `requests.get` could not reach the URL
    | BadZipFile(path: Path)             // `zipfile` could not read the archive
    | FileNotFound(path: Path)           // a missing file, or a missing parent directory
    | FileExists(path: Path)             // `mkdir` without `exist_ok` on an existing path
    | NotADirectory(path: Path)          // `shutil.rmtree` on a plain file
    | ArchiveWriteFailed                 // writing the final ZIP failed
    | UndefinedName(name: string)        // `NameError`

  datatype Option<+T> = None | Some(value: T)

  datatype Result<+T> = Ok(value: T) | Err(error: Error) {
    predicate IsFailure() { Err? }

    function PropagateFailure<U>(): Result<U>
      requires Err?
    {
      Err(error)
    }

    function Extract(): T
      requires Ok?
    {
      value
    }
  }
}
