/** MsvExampleModule: a module whose four lifecycle operations each stop at the first
    failure of the collaborator they call (DLL module base, threading, unique worker). */
module ExampleModuleLib {
  import opened Wrappers
  import opened ErrorCodes
  import opened Handles
  import opened Collaborators
  import opened FailFast

  /** The calls Initialize chains, in order: base initialization, the threading
      service, a unique worker. */
  const InitializeCalls: seq<Request> := [DllModuleBaseInit, SysGetThreading, ThreadingGetUniqueWorker]

  class ExampleModule {
    const moduleName: string
    const loggerName: string
    const dllFactory: Option<DllFactory>
    /** the collaborators this module calls */
    const env: Environment
    const test: FailureTest

    var initialized: bool
    var running: bool

    ghost predicate Valid()
      reads this
    {
      running ==> initialized
    }

    constructor (moduleName: string, loggerName: string, dllFactory: Option<DllFactory>, env: Environment, test: FailureTest)
      ensures Valid() && !initialized && !running
      ensures this.moduleName == moduleName && this.loggerName == loggerName
      ensures this.dllFactory == dllFactory && this.env == env && this.test == test
    {
      this.moduleName, this.loggerName, this.dllFactory := moduleName, loggerName, dllFactory;
      this.env, this.test := env, test;
      initialized, running := false, false;
    }

    /** Call k of Initialize, as a step of its fail-fast chain over the log suffix from `start`. */
    method InitializeCall(q: Request, ghost k: nat, ghost start: nat) returns (c: ErrorCode)
      requires k < |InitializeCalls| && InitializeCalls[k] == q
      requires |env.log| == start + k && Progress(test, InitializeCalls, env.log[start..])
      modifies env
      ensures |env.log| == start + k + 1 && env.log[..start] == old(env.log)[..start]
      ensures IsFailed(test, c) ==> IsCutChain(test, InitializeCalls, {}, env.log[start..], c)
      ensures !IsFailed(test, c) ==> Progress(test, InitializeCalls, env.log[start..])
    {
      ghost var before := env.log;
      c := env.Invoke(q);
      CutStep(test, InitializeCalls, {}, start, before, c, env.log);
    }

    method Initialize() returns (r: ErrorCode)
      requires Valid()
      modifies this`initialized, env
      ensures Valid() && running == old(running)
      ensures old(initialized) ==> r == AlreadyInitializedInfo && initialized && env.log == old(env.log)
      ensures !old(initialized) ==>
        Extends(old(env.log), env.log)
        && IsChain(test, InitializeCalls, env.log[|old(env.log)|..])
        && r == ChainResult(test, env.log[|old(env.log)|..])
        && (initialized <==> r == Success)
    {
      if initialized {
        return AlreadyInitializedInfo;
      }
      ghost var start := |env.log|;
      r := InitializeCall(DllModuleBaseInit, 0, start);
      if !IsFailed(test, r) {
        r := InitializeCall(SysGetThreading, 1, start);
        if !IsFailed(test, r) {
          r := InitializeCall(ThreadingGetUniqueWorker, 2, start);
          if !IsFailed(test, r) {
            CutDone(test, InitializeCalls, {}, env.log[start..]);
            initialized := true;
            r := Success;
          }
        }
      }
      UncutChain(test, InitializeCalls, env.log[start..], r);
    }

    method Uninitialize() returns (r: ErrorCode)
      requires Valid()
      modifies this`initialized, env
      ensures Valid() && running == old(running)
      ensures old(running) ==> r == StillRunningError && initialized == old(initialized) && env.log == old(env.log)
      ensures !old(running) && !old(initialized) ==> r == NotInitializedInfo && !initialized && env.log == old(env.log)
      ensures !old(running) && old(initialized) ==>
        |env.log| == |old(env.log)| + 1
        && env.log == old(env.log) + [Call(WorkerWaitForThreadStop, env.log[|old(env.log)|].code)]
        && (IsFailed(test, env.log[|old(env.log)|].code) ==> r == env.log[|old(env.log)|].code && initialized)
        && (!IsFailed(test, env.log[|old(env.log)|].code) ==> r == Success && !initialized)
    {
      if running {
        return StillRunningError;
      }
      if !initialized {
        return NotInitializedInfo;
      }
      var c := env.Invoke(WorkerWaitForThreadStop);
      if IsFailed(test, c) {
        return c;
      }
      initialized := false;
      r := Success;
    }

    method Start() returns (r: ErrorCode)
      requires Valid()
      modifies this`running, env
      ensures Valid() && initialized == old(initialized)
      ensures !old(initialized) ==> r == NotInitializedError && !running && env.log == old(env.log)
      ensures old(initialized) && old(running) ==> r == AlreadyRunningInfo && running && env.log == old(env.log)
      ensures old(initialized) && !old(running) ==>
        |env.log| == |old(env.log)| + 1
        && env.log == old(env.log) + [Call(WorkerStartThread, env.log[|old(env.log)|].code)]
        && (IsFailed(test, env.log[|old(env.log)|].code) ==> r == env.log[|old(env.log)|].code && !running)
        && (!IsFailed(test, env.log[|old(env.log)|].code) ==> r == Success && running)
    {
      if !initialized {
        return NotInitializedError;
      }
      if running {
        return AlreadyRunningInfo;
      }
      var c := env.Invoke(WorkerStartThread);
      if IsFailed(test, c) {
        return c;
      }
      running := true;
      r := Success;
    }

    method Stop() returns (r: ErrorCode)
      requires Valid()
      modifies this`running, env
      ensures Valid() && initialized == old(initialized)
      ensures !old(running) ==> r == NotRunningInfo && !running && env.log == old(env.log)
      ensures old(running) ==>
        |env.log| == |old(env.log)| + 1
        && env.log == old(env.log) + [Call(WorkerStopThread, env.log[|old(env.log)|].code)]
        && (IsFailed(test, env.log[|old(env.log)|].code) ==> r == env.log[|old(env.log)|].code && running)
        && (!IsFailed(test, env.log[|old(env.log)|].code) ==> r == Success && !running)
    {
      if !running {
        return NotRunningInfo;
      }
      var c := env.Invoke(WorkerStopThread);
      if IsFailed(test, c) {
        return c;
      }
      running := false;
      r := Success;
    }

    /** The destructor: Stop, then Uninitialize. The worker is asked to stop its
        thread before it is asked to wait for the thread's end; a failed stop leaves
        the module running, so the Uninitialize that follows is refused. */
    method Destroy()
      requires Valid()
      modifies this, env
      ensures Valid()
      ensures Extends(old(env.log), env.log)
      ensures old(running) ==>
        |env.log| > |old(env.log)| && env.log[|old(env.log)|].request == WorkerStopThread
        && (IsFailed(test, env.log[|old(env.log)|].code) ==> |env.log| == |old(env.log)| + 1 && running && initialized)
        && (!IsFailed(test, env.log[|old(env.log)|].code) ==>
              |env.log| == |old(env.log)| + 2 && env.log[|old(env.log)| + 1].request == WorkerWaitForThreadStop
              && !running && (initialized <==> IsFailed(test, env.log[|old(env.log)| + 1].code)))
      ensures !old(running) && old(initialized) ==>
        |env.log| == |old(env.log)| + 1 && env.log[|old(env.log)|].request == WorkerWaitForThreadStop
        && !running && (initialized <==> IsFailed(test, env.log[|old(env.log)|].code))
      ensures !old(initialized) ==> env.log == old(env.log) && !initialized && !running
    {
      var stopped := Stop();
      var uninitialized := Uninitialize();
    }
  }
}
