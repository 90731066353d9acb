/** The daemon's per-service runtime record: configuration copied in at construction,
    plus the mutable lifecycle state, process id and log buffer the supervisor updates. */
module Runtime {
  import opened Wrappers
  import opened Definitions
  import opened Logs
  import opened Paths

  datatype ServiceState = Starting | Running | Stopping | Stopped | Crashed | Failed

  datatype Service = Service(
    id: string,
    name: string,
    binaryPath: string,
    args: seq<string>,
    env: Env,
    autoRestart: bool,
    restartLimit: Option<U32>,
    workingDir: string,
    logFile: string,
    state: ServiceState,
    logs: LogBuffer,
    pid: Option<U32>)

  /** `<working_dir>/logs/service.log`, joined as paths. */
  function LogFilePath(workingDir: string): string {
    JoinPath(JoinPath(workingDir, "logs"), "service.log")
  }

  /** `Service::new`: configuration is taken as given; the service starts stopped, with no
      process and an empty log. */
  function New(
    id: string, name: string, binaryPath: string, args: seq<string>, env: Env,
    autoRestart: bool, restartLimit: Option<U32>, workingDir: string): (s: Service)
    ensures s.id == id && s.name == name && s.binaryPath == binaryPath && s.args == args
    ensures s.env == env && s.autoRestart == autoRestart && s.restartLimit == restartLimit
    ensures s.workingDir == workingDir && s.logFile == LogFilePath(workingDir)
    ensures s.state == Stopped && s.pid.None? && s.logs.entries == []
  {
    Service(id, name, binaryPath, args, env, autoRestart, restartLimit, workingDir,
      LogFilePath(workingDir), Stopped, Logs.New(), None)
  }

  /** The log file sits in the `logs` directory directly under the working directory: the
      two joins are one join of `logs/service.log`. */
  lemma LogFileUnderWorkingDir(workingDir: string)
    ensures LogFilePath(workingDir) == JoinPath(workingDir, "logs/service.log")
    ensures NeedsSeparator(workingDir) ==> LogFilePath(workingDir) == workingDir + "/logs/service.log"
    ensures !NeedsSeparator(workingDir) ==> LogFilePath(workingDir) == workingDir + "logs/service.log"
  {
    LogFileComponents();
    JoinTwice(workingDir, "logs", "service.log");
  }

  /** The two components are relative, the directory has no trailing `/`, and with a `/`
      between them they spell `logs/service.log`. */
  lemma LogFileComponents()
    ensures |"logs"| > 0 && !IsAbsolute("logs") && "logs"[|"logs"| - 1] != '/'
    ensures !IsAbsolute("service.log") && !IsAbsolute("logs/service.log")
    ensures "logs" + "/" + "service.log" == "logs/service.log"
  {
    var logs, file := "logs", "service.log";
    assert logs[0] == 'l' && logs[|logs| - 1] == 's' && file[0] == 's';
    assert "logs/service.log"[0] == 'l';
  }

  /** The configuration fields, which nothing after construction changes. */
  predicate SameConfig(a: Service, b: Service) {
    && a.id == b.id && a.name == b.name && a.binaryPath == b.binaryPath && a.args == b.args
    && a.env == b.env && a.autoRestart == b.autoRestart && a.restartLimit == b.restartLimit
    && a.workingDir == b.workingDir && a.logFile == b.logFile
  }

  function GetState(s: Service): ServiceState {
    s.state
  }

  function GetPid(s: Service): Option<U32> {
    s.pid
  }

  /** `set_state`: only the state changes. */
  function SetState(s: Service, state: ServiceState): (r: Service)
    ensures GetState(r) == state
    ensures GetPid(r) == GetPid(s) && r.logs == s.logs && SameConfig(s, r)
  {
    s.(state := state)
  }

  /** `set_pid`: only the process id changes. */
  function SetPid(s: Service, pid: Option<U32>): (r: Service)
    ensures GetPid(r) == pid
    ensures GetState(r) == GetState(s) && r.logs == s.logs && SameConfig(s, r)
  {
    s.(pid := pid)
  }

  /** A line pushed to the service's log buffer at time `now`. */
  function AppendLog(s: Service, now: string, level: string, message: string): (r: Service)
    ensures r.logs == Push(s.logs, now, level, message)
    ensures GetState(r) == GetState(s) && GetPid(r) == GetPid(s) && SameConfig(s, r)
  {
    s.(logs := Push(s.logs, now, level, message))
  }
}
