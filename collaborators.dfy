/** The collaborators whose code is not part of this model (module manager, DLL
    factory, passive and active configuration, worker threads, the steps of the
    bootstrap). Each call to one of them is an opaque request answered by an
    arbitrary status code; the environment keeps the log of the calls it received. */
module Collaborators {
  import opened ErrorCodes

  datatype Request =
    // the six steps of the bootstrap's Initialize
    | PassiveConfigStep
    | LoggingStep
    | SysStep
    | ActiveConfigStep
    | ThreadingStep
    | ModuleManagerStep
    // calls the bootstrap makes on the members it holds
    | ManagerStart
    | ManagerStop
    | ManagerUninitialize
    | ActiveConfigUninitialize
    | WaitForStopEvent
    // calls the example module makes through its DLL module base and its worker
    | DllModuleBaseInit
    | SysGetThreading
    | ThreadingGetUniqueWorker
    | WorkerStartThread
    | WorkerStopThread
    | WorkerWaitForThreadStop
    // calls the main initializer makes on the containers it fills
    | InsertKey(key: int)
    | AddDll(objectId: string)
    | ManagerAddModule(moduleId: int)

  /** One call made to a collaborator and the code it answered. */
  datatype Call = Call(request: Request, code: ErrorCode)

  /** `after` is `before` with further calls appended. */
  ghost predicate Extends(before: seq<Call>, after: seq<Call>) {
    |before| <= |after| && after[..|before|] == before
  }

  class Environment {
    var log: seq<Call>

    constructor ()
      ensures log == []
    {
      log := [];
    }

    /** Makes request `q`; the collaborator may answer any code. */
    method Invoke(q: Request) returns (c: ErrorCode)
      modifies this
      ensures log == old(log) + [Call(q, c)]
    {
      c :| true;
      log := log + [Call(q, c)];
    }
  }
}
