/** The two states of a subsystem and the outcome of a state handler. */
module States {
  /** What the user asked for. */
  datatype AdminState = AdminOffline | AdminOnline

  /** What the subsystem is doing. */
  datatype OperState =
    | Offline
    | StartingChildren
    | Connecting
    | StartingProcesses
    | Online
    | StoppingProcesses
    | StoppingChildren
    | Restarting
    | RestartingProcesses
    | Broken
    | Degraded

  datatype RestartPolicy = Automatic | Manual | ProcessOnly
}
