/** Paths, error values and the result wrappers shared by every component.

    A path is the list of its components: `filepath.Join(d, "vm.pid")` is
    `d + ["vm.pid"]` and the root directory is `[]`. Go's `error` results become
    `Outcome` (nil or an error) and `(T, error)` pairs become `Result<T>`. */
module Base {

  type Path = seq<string>

  /** The error conditions the modelled code can return. */
  datatype Error =
    // filesystem errors (the errno behind a *PathError)
    | NotExist(path: Path)          // ENOENT
    | AlreadyExists(path: Path)     // EEXIST
    | NotADirectory(path: Path)     // ENOTDIR
    | IsADirectory(path: Path)      // EISDIR
    | DirNotEmpty(path: Path)       // ENOTEMPTY
    // fmt.Fscan reading an integer
    | UnexpectedEof
    | ExpectedInteger
    | ValueOutOfRange
    // encoding/json decoding a record
    | DecodeFailed(path: Path)
    // errors built with fmt.Errorf by the core
    | LockInUse(cause: Error)
    | ReadinessTimeout(vmName: string)
    | ContextCanceled
    | VmNotFound(vmName: string)
    | VmRunning(vmName: string)
    | ImagePathInvalid(cause: Error)
    | NoSshPublicKey
    | ReadingSshKey(cause: Error)
    | MakehybridFailed(cause: Error)
    | NoIpFound(host: string)
    // an error produced by a collaborator outside the model (process
    // spawning, signal delivery, DNS, artifact staging, the ISO tool)
    | External(code: int)

  datatype Option<+T> = None | Some(value: T)

  datatype Result<+T> = Ok(value: T) | Err(error: Error) {
    predicate IsFailure() { Err? }
    function PropagateFailure<U>(): Result<U> requires Err? { Err(error) }
    function Extract(): T requires Ok? { value }
  }

  /** A Go `error` result: `Nil` or an error. */
  datatype Outcome = Nil | Fail(error: Error)

  /** `/`-separated text of an absolute path. */
  function Render(p: Path): string
  {
    if p == [] then "" else Render(p[..|p| - 1]) + "/" + p[|p| - 1]
  }
}
