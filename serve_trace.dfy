/**
 * The observable vocabulary of one `serve` run: the exceptions that can
 * cross it, the actions it performs on the temp directory, the plugins and
 * the preview server, and how it ends.
 */
module ServeTrace {

  /** A preview server object; the `serve` plugin event may hand back a different one. */
  type Handle = nat

  datatype Exc =
    | TemplateError(message: string)              // jinja2 template failure
    | OSError(typeName: string, message: string)  // OSError or one of its subclasses
    | KeyboardInterrupt
    | Abort(message: string)                      // the command's user-facing abort
    | Other(typeName: string, message: string)    // anything else, configuration errors included

  /** The source treats TemplateError as an OSError subclass. */
  predicate IsOSError(e: Exc) {
    e.TemplateError? || e.OSError?
  }

  /**
   * One call the command makes, recorded whatever its result: `Startup`,
   * `Build`, `Construct`, `ServeEvent`, `ServerServe` and `ShutdownEvent` also
   * appear when that call raises, so `Construct` means construction attempted.
   */
  datatype Action =
    | CreateTemp(dir: string)
    | Startup(dirty: bool)
    | Build(siteUrl: string, liveServer: bool, dirty: bool)
    | Construct(server: Handle, root: string, mountPath: string)
    | Watch(path: string, server: Handle)
    | ServeEvent(server: Handle)
    | ServerServe(server: Handle)
    | ServerShutdown(server: Handle)
    | ShutdownEvent
    | RemoveTemp(dir: string)

  datatype Outcome = Ok | Raise(exc: Exc)
}
