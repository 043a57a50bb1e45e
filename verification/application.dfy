/** The application descriptor a supervised process is created from, and the
    lifecycle group ("generation") it can belong to. */
module Application {
  import opened Common

  type Signal = string

  /** How readiness is detected: a `ready` control message, or the child
      reporting that it listens for connections (any other `ready-on` value). */
  datatype ReadyOn = OnMessage | OnListening

  /** `type: "logger"` applications are logging processes themselves. */
  datatype AppKind = LoggerApp | NormalApp

  /** The fields of an application configuration that the core reads.
      `startTimeout`/`stopTimeout` are `None` when the configuration sets them
      to `null` (timer disabled). `args` is `None` when the configuration
      has no `args` entry. */
  datatype App = App(
    name: string,
    cwd: string,
    args: Option<seq<string>>,
    kind: AppKind,
    logger: string,
    loggerArgs: seq<string>,
    readyOn: ReadyOn,
    startTimeout: Option<nat>,
    stopTimeout: Option<nat>,
    stopSignal: Signal,
    killSignal: Signal,
    maxBufferedLogBytes: int,
    revision: int)

  /** A lifecycle group ("new", "running", "marked", "old"), identified by `id`. */
  datatype Generation = Generation(id: nat, name: string)

  /** One element of a logging-target key: a string, or (for the
      `logger-args` of a normal application) a whole nested list. The JSON
      text of the key is not modelled, only its list structure. */
  datatype KeyPart = Text(text: string) | Texts(items: seq<string>)
}
