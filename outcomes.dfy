/**
 * How a run of the command-line program ends: either the process exits with a
 * status code after printing a message, or an exception escapes to the
 * interpreter (which then exits non-zero with a traceback).
 */
module Outcomes {

  /** The exceptions the modelled code raises or lets through. */
  datatype Failure =
    | KeyError(key: string)          // a missing dict key; `key` is what the error names
    | TypeError                      // a non-string used as a path or variable name, or an abstract class instantiated
    | ModuleNotFound(moduleName: string) // `import_module` of a module that does not exist
    | MalformedClassName             // `_validate_class_name`: more than two words
    | FileNotFound(path: string)     // `load_app_env`: the env file is missing
    | NotImplementedError
    | ValueError                     // `validate_project_name`
    | AppConfigFileNotSet
    | HandlerError                   // any other exception raised by user handler code
    | UsageError                     // argparse rejected the arguments (it exits with status 2)

  /** What is printed before a controlled exit. */
  datatype Message =
    | NoMessage
    | UsageText
    | NotYetImplemented   // "invalid command. Not yet implemented, try again."
    | InvalidAction(token: string, command: string, actions: seq<string>)

  datatype Outcome = Exited(code: int, message: Message) | Raised(failure: Failure)

  /** How a failure reaches the process boundary: argparse turns its own errors into exit status 2. */
  function Terminate(f: Failure): (o: Outcome)
    ensures o.Exited? <==> f == UsageError
    ensures o.Exited? ==> o == Exited(2, UsageText)
    ensures o.Raised? ==> o.failure == f
  {
    if f == UsageError then Exited(2, UsageText) else Raised(f)
  }

  /** What user code did when it was called. */
  datatype Completion = Returned | RaisedNotImplemented | RaisedOther

  /**
   * What the engines learn from outside the modelled code: the working
   * directory, which paths exist, whether a handler's own argument schema
   * (`entry_point_args`) accepts an argv window, and how a handler method
   * (`run`, `action`, `action_<token>`, or the rest of a user-defined
   * `__init__`) completes when called on a class of the given name.
   */
  datatype Host = Host(
    cwd: string,
    fileExists: string -> bool,
    accepts: (string, seq<string>) -> bool,
    invoke: (string, string) -> Completion)
}
