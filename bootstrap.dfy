/** MsvMain: the bootstrap that creates the application's services in six steps,
    starts and stops them through the module manager, and tears them down again. */
module Bootstrap {
  import opened ErrorCodes
  import opened Collaborators
  import opened FailFast

  /** The objects the bootstrap holds. */
  datatype Member =
    | PassiveCfg
    | LoggerProvider
    | Logger
    | DllFactory
    | Sys
    | Configuration
    | ActiveCfg
    | Threading
    | StopEvent
    | Modules
    | ModuleManager

  /** The six steps of Initialize, in order. */
  const InitSteps: seq<Request> := [PassiveConfigStep, LoggingStep, SysStep, ActiveConfigStep, ThreadingStep, ModuleManagerStep]

  /** The members step k assigns. */
  function StepMembers(k: nat): (ms: set<Member>) {
    match k
    case 0 => {PassiveCfg}
    case 1 => {LoggerProvider, Logger}
    case 2 => {DllFactory, Sys}
    case 3 => {Configuration, ActiveCfg}
    case 4 => {Threading, StopEvent}
    case 5 => {Modules, ModuleManager}
    case _ => {}
  }

  /** The members the first k steps assign. */
  function MembersBefore(k: nat): (ms: set<Member>) {
    if k == 0 then {} else MembersBefore(k - 1) + StepMembers(k - 1)
  }

  /** What a failed step k leaves behind: it may have assigned or released any of its own
      members (a failed factory call stores a null pointer), and touches no other. */
  predicate FailedStepLeaves(before: set<Member>, k: nat, after: set<Member>) {
    after - StepMembers(k) == before - StepMembers(k) && after <= before + StepMembers(k)
  }

  const AllMembers: set<Member> :=
    {PassiveCfg, LoggerProvider, Logger, DllFactory, Sys, Configuration, ActiveCfg, Threading, StopEvent, Modules, ModuleManager}

  /** Uninitialize releases every member but the logger provider and the logger. */
  const KeptMembers: set<Member> := {LoggerProvider, Logger}

  /** The six steps together assign every member, each member in exactly one step. */
  lemma StepsAssignEveryMember()
    ensures MembersBefore(|InitSteps|) == AllMembers
    ensures forall m: Member :: m in AllMembers
    ensures forall m: Member, j, k | 0 <= j < k < |InitSteps| && m in StepMembers(j) :: m !in StepMembers(k)
  {
    assert MembersBefore(6) == StepMembers(0) + StepMembers(1) + StepMembers(2) + StepMembers(3) + StepMembers(4) + StepMembers(5);
    forall m: Member
      ensures m in AllMembers
    {
      match m
      case PassiveCfg =>
      case LoggerProvider =>
      case Logger =>
      case DllFactory =>
      case Sys =>
      case Configuration =>
      case ActiveCfg =>
      case Threading =>
      case StopEvent =>
      case Modules =>
      case ModuleManager =>
    }
  }

  class MsvMain {
    /** the collaborators: the steps' services and the module manager */
    const env: Environment
    const test: FailureTest
    /** m_spMainInitializer and m_spFactory are present */
    var hasInitializer: bool
    var hasFactory: bool
    var members: set<Member>
    var initialized: bool
    var running: bool
    /** the stop event is set */
    var stopRequested: bool

    ghost predicate Valid()
      reads this
    {
      (running ==> initialized)
      && (initialized ==> members == AllMembers && !hasInitializer && !hasFactory)
    }

    /** The factory is the one passed, or else the default factory when there is one. */
    constructor (env: Environment, test: FailureTest, initializerPassed: bool, factoryPassed: bool, defaultFactoryAvailable: bool)
      ensures Valid() && this.env == env && this.test == test
      ensures hasInitializer == initializerPassed && hasFactory == (factoryPassed || defaultFactoryAvailable)
      ensures members == {} && !initialized && !running && !stopRequested
    {
      this.env, this.test := env, test;
      hasInitializer, hasFactory := initializerPassed, factoryPassed || defaultFactoryAvailable;
      members, initialized, running, stopRequested := {}, false, false, false;
    }

    /** Step k of Initialize, as a step of its fail-fast chain over the log suffix from
        `start`. A successful step assigns its members (the threading step a new, unset
        stop event); a failed one may have assigned or released any of them. */
    method InitializeStep(q: Request, k: nat, ghost start: nat, ghost base: set<Member>) returns (c: ErrorCode)
      requires k < |InitSteps| && InitSteps[k] == q
      requires |env.log| == start + k && Progress(test, InitSteps, env.log[start..])
      requires members == base + MembersBefore(k)
      modifies this`members, this`stopRequested, env
      ensures |env.log| == start + k + 1 && env.log[..start] == old(env.log)[..start]
      ensures IsFailed(test, c) ==>
        IsCutChain(test, InitSteps, {}, env.log[start..], c) && FailedStepLeaves(base + MembersBefore(k), k, members)
        && stopRequested == old(stopRequested)
      ensures !IsFailed(test, c) ==>
        Progress(test, InitSteps, env.log[start..]) && members == base + MembersBefore(k + 1)
        && stopRequested == (old(stopRequested) && q != ThreadingStep)
    {
      ghost var before := env.log;
      c := env.Invoke(q);
      CutStep(test, InitSteps, {}, start, before, c, env.log);
      if IsFailed(test, c) {
        var after: set<Member> :| after <= StepMembers(k);
        members := (members - StepMembers(k)) + after;
      } else {
        members := members + StepMembers(k);
        if q == ThreadingStep {
          stopRequested := false;
        }
      }
    }

    /** Steps k and k + 1 of Initialize; the second runs only if the first did not fail.
        This and the next two methods only group the steps of Initialize to keep each
        proof small; the source runs the six steps in one method. */
    method InitializeTwoSteps(q1: Request, q2: Request, k: nat, ghost start: nat, ghost base: set<Member>) returns (c: ErrorCode)
      requires k + 1 < |InitSteps| && InitSteps[k] == q1 && InitSteps[k + 1] == q2
      requires |env.log| == start + k && Progress(test, InitSteps, env.log[start..])
      requires members == base + MembersBefore(k)
      modifies this`members, this`stopRequested, env
      ensures start + k < |env.log| <= start + k + 2 && env.log[..start] == old(env.log)[..start]
      ensures IsFailed(test, c) ==>
        IsCutChain(test, InitSteps, {}, env.log[start..], c)
        && FailedStepLeaves(base + MembersBefore(|env.log| - start - 1), |env.log| - start - 1, members)
        && stopRequested == (old(stopRequested) && !(q1 == ThreadingStep && |env.log| == start + k + 2))
      ensures !IsFailed(test, c) ==>
        Progress(test, InitSteps, env.log[start..]) && |env.log| == start + k + 2
        && members == base + MembersBefore(k + 2)
        && stopRequested == (old(stopRequested) && q1 != ThreadingStep && q2 != ThreadingStep)
    {
      c := InitializeStep(q1, k, start, base);
      if !IsFailed(test, c) {
        c := InitializeStep(q2, k + 1, start, base);
      }
    }

    /** Steps 0 to 3 of Initialize, each run only if the earlier ones did not fail. */
    method InitializeFourSteps(ghost start: nat, ghost base: set<Member>) returns (c: ErrorCode)
      requires |env.log| == start && members == base
      modifies this`members, this`stopRequested, env
      ensures start < |env.log| <= start + 4 && env.log[..start] == old(env.log)[..start]
      ensures stopRequested == old(stopRequested)
      ensures IsFailed(test, c) ==>
        IsCutChain(test, InitSteps, {}, env.log[start..], c)
        && FailedStepLeaves(base + MembersBefore(|env.log| - start - 1), |env.log| - start - 1, members)
      ensures !IsFailed(test, c) ==>
        Progress(test, InitSteps, env.log[start..]) && |env.log| == start + 4
        && members == base + MembersBefore(4)
    {
      c := InitializeTwoSteps(PassiveConfigStep, LoggingStep, 0, start, base);
      if !IsFailed(test, c) {
        c := InitializeTwoSteps(SysStep, ActiveConfigStep, 2, start, base);
      }
    }

    /** The six steps, in order, each run only if every earlier one did not fail; the stop
        event is replaced by a new, unset one exactly when the threading step succeeded,
        that is, when the last step was reached. */
    method RunSteps(ghost start: nat, ghost base: set<Member>) returns (r: ErrorCode)
      requires |env.log| == start && members == base
      modifies this`members, this`stopRequested, env
      ensures start <= |env.log| && env.log[..start] == old(env.log)[..start]
      ensures IsCutChain(test, InitSteps, {}, env.log[start..], r)
      ensures stopRequested == (old(stopRequested) && |env.log| < start + |InitSteps|)
      ensures r != Success ==>
        start < |env.log| && FailedStepLeaves(base + MembersBefore(|env.log| - start - 1), |env.log| - start - 1, members)
      ensures r == Success ==> members == base + MembersBefore(|InitSteps|)
    {
      r := InitializeFourSteps(start, base);
      if !IsFailed(test, r) {
        r := InitializeTwoSteps(ThreadingStep, ModuleManagerStep, 4, start, base);
        if !IsFailed(test, r) {
          CutDone(test, InitSteps, {}, env.log[start..]);
          r := Success;
        }
      }
    }

    method Initialize() returns (r: ErrorCode)
      requires Valid()
      modifies this`members, this`initialized, this`hasInitializer, this`hasFactory, this`stopRequested, env
      ensures Valid() && running == old(running)
      ensures old(initialized) || !old(hasInitializer) || !old(hasFactory) ==>
        members == old(members) && env.log == old(env.log) && stopRequested == old(stopRequested)
        && hasInitializer == old(hasInitializer) && hasFactory == old(hasFactory)
      ensures old(initialized) ==> r == AlreadyInitializedInfo && initialized
      ensures !old(initialized) && !old(hasInitializer) ==> r == InvalidDataError && !initialized
      ensures !old(initialized) && old(hasInitializer) && !old(hasFactory) ==> r == AllocationError && !initialized
      ensures !old(initialized) && old(hasInitializer) && old(hasFactory) ==>
        |old(env.log)| < |env.log| && env.log[..|old(env.log)|] == old(env.log)
        && IsChain(test, InitSteps, env.log[|old(env.log)|..])
        && r == ChainResult(test, env.log[|old(env.log)|..])
        && (initialized <==> r == Success)
        && stopRequested == (old(stopRequested) && |env.log| - |old(env.log)| < |InitSteps|)
        && (initialized ==> !hasInitializer && !hasFactory)
        && (!initialized ==>
              hasInitializer && hasFactory
              && FailedStepLeaves(old(members) + MembersBefore(|env.log| - |old(env.log)| - 1),
                                  |env.log| - |old(env.log)| - 1, members))
    {
      if initialized {
        return AlreadyInitializedInfo;
      }
      if !hasInitializer {
        return InvalidDataError;
      }
      if !hasFactory {
        return AllocationError;
      }
      ghost var start := |env.log|;
      ghost var base := members;
      r := RunSteps(start, base);
      UncutChain(test, InitSteps, env.log[start..], r);
      if r == Success {
        StepsAssignEveryMember();
        hasInitializer, hasFactory := false, false;
        initialized := true;
      }
    }

    /** Tears down everything but the logging, whatever the module manager and the
        active configuration answer, and leaves the bootstrap uninitialized. */
    method Uninitialize() returns (r: ErrorCode)
      requires Valid()
      modifies this`members, this`initialized, env
      ensures Valid() && running == old(running)
      ensures old(running) ==> r == StillRunningError && initialized && members == old(members) && env.log == old(env.log)
      ensures !old(running) && !old(initialized) ==> r == NotInitializedInfo && !initialized && members == old(members) && env.log == old(env.log)
      ensures !old(running) && old(initialized) ==>
        r == Success && !initialized && members == KeptMembers
        && |env.log| == |old(env.log)| + 2 && env.log[..|old(env.log)|] == old(env.log)
        && env.log[|old(env.log)|].request == ManagerUninitialize
        && env.log[|old(env.log)| + 1].request == ActiveConfigUninitialize
    {
      if running {
        return StillRunningError;
      }
      if !initialized {
        return NotInitializedInfo;
      }
      var managerCode := env.Invoke(ManagerUninitialize);
      members := members - {ModuleManager, Modules};
      var activeCfgCode := env.Invoke(ActiveConfigUninitialize);
      members := members - {ActiveCfg, Configuration, StopEvent, Threading, Sys, DllFactory, PassiveCfg};
      initialized := false;
      r := Success;
    }

    method Start() returns (r: ErrorCode)
      requires Valid()
      modifies this`running, env
      ensures Valid() && initialized == old(initialized)
      ensures !old(initialized) ==> r == NotInitializedError && !running && env.log == old(env.log)
      ensures old(initialized) && old(running) ==> r == AlreadyRunningInfo && running && env.log == old(env.log)
      ensures old(initialized) && !old(running) ==>
        |env.log| == |old(env.log)| + 1
        && env.log == old(env.log) + [Call(ManagerStart, env.log[|old(env.log)|].code)]
        && (IsFailed(test, env.log[|old(env.log)|].code) ==> r == env.log[|old(env.log)|].code && !running)
        && (!IsFailed(test, env.log[|old(env.log)|].code) ==> r == Success && running)
    {
      if !initialized {
        return NotInitializedError;
      }
      if running {
        return AlreadyRunningInfo;
      }
      var c := env.Invoke(ManagerStart);
      if IsFailed(test, c) {
        return c;
      }
      running := true;
      r := Success;
    }

    /** Stops the module manager; however it answers, the bootstrap is no longer running. */
    method Stop() returns (r: ErrorCode)
      requires Valid()
      modifies this`running, env
      ensures Valid() && initialized == old(initialized) && !running
      ensures !old(running) ==> r == NotRunningInfo && env.log == old(env.log)
      ensures old(running) ==>
        r == Success && |env.log| == |old(env.log)| + 1
        && env.log == old(env.log) + [Call(ManagerStop, env.log[|old(env.log)|].code)]
    {
      if !running {
        return NotRunningInfo;
      }
      var c := env.Invoke(ManagerStop);
      running := false;
      r := Success;
    }

    /** A signal sets the stop event, but only once initialized; a second signal changes
        nothing more. */
    method OnSignal()
      modifies this`stopRequested
      ensures stopRequested == (old(stopRequested) || initialized)
    {
      if !initialized {
        return;
      }
      stopRequested := true;
    }

    /** Waits on the stop event, which must exist; its answer is returned. */
    method WaitForStopRequest() returns (r: ErrorCode)
      requires StopEvent in members
      modifies env
      ensures env.log == old(env.log) + [Call(WaitForStopEvent, r)]
    {
      r := env.Invoke(WaitForStopEvent);
    }

    /** The destructor: Stop, then Uninitialize; it always ends fully torn down. */
    method Destroy()
      requires Valid()
      modifies this, env
      ensures Valid() && !running && !initialized
      ensures old(initialized) ==> members == KeptMembers
      ensures !old(initialized) ==> members == old(members) && env.log == old(env.log)
    {
      var stopped := Stop();
      var uninitialized := Uninitialize();
    }
  }

  /** Once Initialize has succeeded and Uninitialize has run, Initialize is refused with
      INVALID_DATA_ERROR, because the initializer was released. */
  method ReinitializeIsRefused(main: MsvMain) returns (first: ErrorCode, second: ErrorCode, third: ErrorCode)
    requires main.Valid() && !main.initialized
    modifies main, main.env
    ensures first == Success && second == Success ==> third == InvalidDataError && !main.initialized
  {
    first := main.Initialize();
    second := main.Uninitialize();
    third := main.Initialize();
  }
}
