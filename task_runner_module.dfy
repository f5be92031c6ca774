/** The task runner module: loads the task manager and the task runner
    servers on `start`, stops the runner process and the HTTP server on
    `stop`, and attaches or detaches the WS server's disconnect analyzer when
    the runner lifecycle events `runner:started` and `runner:stopped` fire.
    The collaborators' own code is not part of this model: they are opaque
    handles, and the calls made on them are kept in a ghost log. */
module TaskRunners {
  import opened Wrappers

  /** Opaque handles of collaborator instances. */
  datatype TaskRunnerServer = TaskRunnerServer(id: nat)
  datatype LocalTaskManager = LocalTaskManager(id: nat)
  datatype TaskRunnerProcess = TaskRunnerProcess(id: nat)
  datatype DisconnectAnalyzer = InternalTaskRunnerDisconnectAnalyzer(id: nat)

  /** The WS server, reduced to its optional disconnect analyzer slot. */
  class TaskRunnerWsServer {
    var disconnectAnalyzer: Option<DisconnectAnalyzer>

    constructor ()
      ensures disconnectAnalyzer == None
    {
      disconnectAnalyzer := None;
    }

    method SetDisconnectAnalyzer(analyzer: Option<DisconnectAnalyzer>)
      modifies this
      ensures disconnectAnalyzer == analyzer
    {
      disconnectAnalyzer := analyzer;
    }
  }

  /** The singleton instances the dependency container hands out. */
  datatype Container = Container(
    taskManager: LocalTaskManager,
    httpServer: TaskRunnerServer,
    wsServer: TaskRunnerWsServer,
    disconnectAnalyzer: DisconnectAnalyzer)

  datatype TaskRunnersConfig = TaskRunnersConfig(enabled: bool)

  datatype RunnerLifecycleEvent = RunnerStarted | RunnerStopped

  /** The assertion error `start` raises when task runners are disabled. */
  datatype StartError = TaskRunnerDisabled

  /** A call the module makes on a collaborator. */
  datatype Call =
    | TaskManagerLoaded(taskManager: LocalTaskManager)
    | ServersLoaded(httpServer: TaskRunnerServer)
    | HttpServerStart(server: TaskRunnerServer)
    | ProcessStop(process: TaskRunnerProcess)
    | HttpServerStop(server: TaskRunnerServer)

  /** The calls `stop` makes, given the slots it finds: one stop per loaded
      slot, the runner process first and the HTTP server last. */
  function StopCalls(process: Option<TaskRunnerProcess>, httpServer: Option<TaskRunnerServer>): (calls: seq<Call>)
    ensures |calls| == (if process.Some? then 1 else 0) + (if httpServer.Some? then 1 else 0)
    ensures process.Some? ==> calls[0] == ProcessStop(process.value)
    ensures httpServer.Some? ==> calls[|calls| - 1] == HttpServerStop(httpServer.value)
  {
    (if process.Some? then [ProcessStop(process.value)] else [])
    + (if httpServer.Some? then [HttpServerStop(httpServer.value)] else [])
  }

  class TaskRunnerModule {
    const runnerConfig: TaskRunnersConfig
    const container: Container

    var taskRunnerHttpServer: Option<TaskRunnerServer>
    var taskRunnerWsServer: TaskRunnerWsServer?
    var taskManager: Option<LocalTaskManager>
    /** Only ever cleared by this module. */
    var taskRunnerProcess: Option<TaskRunnerProcess>

    /** The calls made on collaborators, oldest first. */
    ghost var calls: seq<Call>

    /** The loaded WS server is the container's, and the servers are only
        ever loaded once the task manager is. */
    ghost predicate Valid()
      reads this
    {
      && (taskRunnerWsServer == null || taskRunnerWsServer == container.wsServer)
      && (taskRunnerHttpServer.Some? ==> taskManager.Some?)
      && (taskRunnerWsServer != null ==> taskManager.Some?)
    }

    /** Builds the module and registers its two lifecycle event handlers
        (see `HandleLifecycleEvent`). */
    constructor (runnerConfig: TaskRunnersConfig, container: Container)
      ensures Valid()
      ensures this.runnerConfig == runnerConfig && this.container == container
      ensures taskRunnerHttpServer == None && taskRunnerWsServer == null
      ensures taskManager == None && taskRunnerProcess == None
      ensures calls == []
    {
      this.runnerConfig := runnerConfig;
      this.container := container;
      taskRunnerHttpServer := None;
      taskRunnerWsServer := null;
      taskManager := None;
      taskRunnerProcess := None;
      calls := [];
    }

    /** Fails when task runners are disabled, without loading anything;
        otherwise loads the task manager, then the servers, and starts the
        HTTP server. Calling it again loads and starts them again. */
    method Start() returns (r: Outcome<StartError>)
      requires Valid()
      modifies this
      ensures Valid()
      ensures !runnerConfig.enabled ==> r == Fail(TaskRunnerDisabled) && unchanged(this)
      ensures runnerConfig.enabled ==>
        && r == Pass
        && taskManager == Some(container.taskManager)
        && taskRunnerHttpServer == Some(container.httpServer)
        && taskRunnerWsServer == container.wsServer
        && taskRunnerProcess == old(taskRunnerProcess)
        && calls == old(calls) + [TaskManagerLoaded(container.taskManager),
                                  ServersLoaded(container.httpServer),
                                  HttpServerStart(container.httpServer)]
    {
      if !runnerConfig.enabled {
        return Fail(TaskRunnerDisabled);
      }
      LoadTaskManager();
      LoadTaskRunnerServer();
      r := Pass;
    }

    /** Stops the runner process, if any, then the HTTP server, if any, and
        clears both slots; the WS server and the task manager stay loaded. */
    method Stop()
      requires Valid()
      modifies this
      ensures Valid()
      ensures taskRunnerProcess == None && taskRunnerHttpServer == None
      ensures taskManager == old(taskManager) && taskRunnerWsServer == old(taskRunnerWsServer)
      ensures calls == old(calls) + StopCalls(old(taskRunnerProcess), old(taskRunnerHttpServer))
    {
      if taskRunnerProcess.Some? {
        calls := calls + [ProcessStop(taskRunnerProcess.value)];
        taskRunnerProcess := None;
      }
      if taskRunnerHttpServer.Some? {
        calls := calls + [HttpServerStop(taskRunnerHttpServer.value)];
        taskRunnerHttpServer := None;
      }
    }

    /** Gets the task manager from the container and registers it as the
        container's task manager. */
    method LoadTaskManager()
      requires Valid()
      modifies this
      ensures Valid()
      ensures taskManager == Some(container.taskManager)
      ensures taskRunnerHttpServer == old(taskRunnerHttpServer) && taskRunnerWsServer == old(taskRunnerWsServer)
      ensures taskRunnerProcess == old(taskRunnerProcess)
      ensures calls == old(calls) + [TaskManagerLoaded(container.taskManager)]
    {
      taskManager := Some(container.taskManager);
      calls := calls + [TaskManagerLoaded(container.taskManager)];
    }

    /** Gets both servers from the container and starts the HTTP server; the
        servers need the task manager to be loaded first. */
    method LoadTaskRunnerServer()
      requires Valid() && taskManager.Some?
      modifies this
      ensures Valid()
      ensures taskRunnerHttpServer == Some(container.httpServer) && taskRunnerWsServer == container.wsServer
      ensures taskManager == old(taskManager) && taskRunnerProcess == old(taskRunnerProcess)
      ensures calls == old(calls) + [ServersLoaded(container.httpServer), HttpServerStart(container.httpServer)]
    {
      taskRunnerHttpServer := Some(container.httpServer);
      taskRunnerWsServer := container.wsServer;
      calls := calls + [ServersLoaded(container.httpServer)];
      calls := calls + [HttpServerStart(container.httpServer)];
    }

    /** The handlers registered on the lifecycle events: `runner:started`
        attaches the internal disconnect analyzer to the loaded WS server,
        `runner:stopped` detaches it; without a loaded WS server neither does
        anything. */
    method HandleLifecycleEvent(event: RunnerLifecycleEvent)
      requires Valid()
      modifies container.wsServer
      ensures taskRunnerWsServer == null ==> unchanged(container.wsServer)
      ensures taskRunnerWsServer != null ==>
        taskRunnerWsServer.disconnectAnalyzer ==
          (if event == RunnerStarted then Some(container.disconnectAnalyzer) else None)
    {
      match event
      case RunnerStarted =>
        if taskRunnerWsServer != null {
          taskRunnerWsServer.SetDisconnectAnalyzer(Some(container.disconnectAnalyzer));
        }
      case RunnerStopped =>
        if taskRunnerWsServer != null {
          taskRunnerWsServer.SetDisconnectAnalyzer(None);
        }
    }
  }

  /** A client of the module: a full lifecycle, using only the contracts. */
  method Lifecycle(container: Container)
    modifies container.wsServer
  {
    var runner := new TaskRunnerModule(TaskRunnersConfig(true), container);
    runner.Stop();
    assert runner.calls == [];
    runner.HandleLifecycleEvent(RunnerStarted);
    var r := runner.Start();
    assert r == Pass && runner.taskRunnerWsServer == container.wsServer;
    runner.HandleLifecycleEvent(RunnerStarted);
    assert container.wsServer.disconnectAnalyzer == Some(container.disconnectAnalyzer);
    runner.Stop();
    assert runner.taskManager == Some(container.taskManager) && runner.taskRunnerHttpServer == None;
    assert runner.calls[|runner.calls| - 1] == HttpServerStop(container.httpServer);
    ghost var afterFirstStop := runner.calls;
    runner.Stop();
    assert runner.calls == afterFirstStop;
    runner.HandleLifecycleEvent(RunnerStopped);
    assert container.wsServer.disconnectAnalyzer == None;

    var disabled := new TaskRunnerModule(TaskRunnersConfig(false), container);
    r := disabled.Start();
    assert r == Fail(TaskRunnerDisabled) && disabled.taskManager == None;
  }
}
