/** Types shared by every component: bytes, options, the error taxonomy and
    the three ways a call can end (it returns a value, it returns an error,
    or it aborts through a panic or a fatal log call). */
module Common {

  newtype byte = x: int | 0 <= x < 256

  /** File contents and template text, byte for byte. */
  type Bytes = seq<byte>

  /** A resolved, absolute location: its components from the root; [] is "/". */
  type Loc = seq<string>

  datatype Option<T> = None | Some(value: T)

  /** What the operating system reports when a file operation fails. */
  datatype IoError =
    | NotExist
    | Permission
    | IsADirectory
    | NotADirectory
    | AlreadyExists

  /** Every error the core produces, returned or raised. */
  datatype Fault =
    | Io(error: IoError)                 // an OS error passed on unchanged
    | ReadTemplate(error: IoError)       // "error reading template file"
    | ReadValues(error: IoError)         // "error reading values file"
    | ParseValues                        // "error parsing values YAML"
    | ParseTemplate                      // "error parsing template"
    | ExecuteTemplate                    // "error executing template"
    | CreateDirectory(error: IoError)    // "Error creating directory"
    | WriteOutput(error: IoError)        // "error writing output file"
    | RootNotADirectory                  // panic: "<dir> is not a directory"
    | WalkFailed(error: IoError)         // an error handed to the walk callback
    | ListContainers                     // the runtime could not list containers
    | MissingName                        // a listed container has no name (index out of range)
    | CannotFind(name: string)           // "Cannot find container `<name>`"
    | DeployFailed                       // the deployment command exited non-zero
    | ParseConfig                        // the configuration file is not valid YAML
    | BadFlag(flag: string)              // the flag package rejects the command line
    | UnknownArguments                   // "Unknown commandline arguments"

  /** Ok: the call returned normally without error. Fail: it returned an
      error. Abort: it panicked or called log.Fatal. */
  datatype Result<T> = Ok(value: T) | Fail(fault: Fault) | Abort(fault: Fault)

  /** The outcome of a primitive filesystem operation. */
  datatype Io<T> = Done(value: T) | Failed(error: IoError)
}
