/** The daemon's listing as the command-line planners see it, after the
    user's selection has been applied to it. */
module DaemonInfo {

  /** A process as listed: its application's name, its instance number and its id. */
  datatype ProcessInfo = ProcessInfo(appName: string, number: int, id: nat)

  /** An application as listed: its name and configured instance count. */
  datatype AppInfo = AppInfo(name: string, instances: nat)

  /** The selection: the applications, the processes of the `running`
      generation, those of the `new` generation (`incoming`), and every
      selected process. */
  datatype Selection = Selection(
    applications: seq<AppInfo>,
    running: seq<ProcessInfo>,
    incoming: seq<ProcessInfo>,
    all: seq<ProcessInfo>)
}
