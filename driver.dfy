/** The example application's entry point: create the bootstrap, initialize it,
    register the signal handler, start, wait for a stop request, stop, uninitialize. */
module Driver {
  import opened Wrappers
  import opened ErrorCodes
  import opened Handles
  import opened Collaborators
  import opened FailFast
  import opened Bootstrap

  /** How far a run of the entry point got. */
  datatype Phase = NotCreated | InitializeFailed | StartFailed | Completed

  /** What the entry point does with an initialized main object: start it and, once
      started, wait for the stop request, stop it and uninitialize it. Only a Start
      failure is returned; Stop and Uninitialize of a started object cannot fail. */
  method Serve(m: MsvMain) returns (r: ErrorCode)
    requires m.Valid() && m.initialized && !m.running
    modifies m, m.env
    ensures |m.env.log| > |old(m.env.log)| && m.env.log[..|old(m.env.log)|] == old(m.env.log)
    ensures m.env.log[|old(m.env.log)|].request == ManagerStart
    ensures IsFailed(m.test, m.env.log[|old(m.env.log)|].code) ==>
      r == m.env.log[|old(m.env.log)|].code && |m.env.log| == |old(m.env.log)| + 1 && m.initialized && !m.running
    ensures !IsFailed(m.test, m.env.log[|old(m.env.log)|].code) ==>
      r == Success && !m.initialized && !m.running && m.members == KeptMembers
      && |m.env.log| == |old(m.env.log)| + 5
      && [m.env.log[|m.env.log| - 4].request, m.env.log[|m.env.log| - 3].request,
          m.env.log[|m.env.log| - 2].request, m.env.log[|m.env.log| - 1].request]
         == [WaitForStopEvent, ManagerStop, ManagerUninitialize, ActiveConfigUninitialize]
  {
    ghost var before := m.env.log;
    r := m.Start();
    if IsFailed(m.test, r) {
      return;
    }
    ghost var started := m.env.log;
    // the wait's answer is deliberately ignored
    var waited := m.WaitForStopRequest();
    r := m.Stop();
    r := m.Uninitialize();
    assert m.env.log[..|started|] == started;
    assert m.env.log[..|before|] == before;
  }

  /** The process: its global bootstrap object and whether the signal handler is installed. */
  class Process {
    const env: Environment
    const test: FailureTest
    /** the main object, when one exists */
    var msvMain: Option<MsvMain>
    var handlerInstalled: bool

    constructor (env: Environment, test: FailureTest)
      ensures this.env == env && this.test == test && msvMain.None? && !handlerInstalled
    {
      this.env, this.test := env, test;
      msvMain, handlerInstalled := None, false;
    }

    /** The signal handler forwards the signal only to an existing, initialized main object. */
    method SignalHandler()
      modifies (if msvMain.Some? then {msvMain.value} else {})`stopRequested
      ensures msvMain.Some? ==>
        msvMain.value.stopRequested == (old(msvMain.value.stopRequested) || old(msvMain.value.initialized))
      ensures msvMain.Some? ==>
        msvMain.value.initialized == old(msvMain.value.initialized) && msvMain.value.running == old(msvMain.value.running)
        && msvMain.value.members == old(msvMain.value.members)
        && msvMain.value.hasInitializer == old(msvMain.value.hasInitializer) && msvMain.value.hasFactory == old(msvMain.value.hasFactory)
    {
      if msvMain.Some? && msvMain.value.initialized {
        msvMain.value.OnSignal();
      }
    }

    /** The entry point. The main object is built with an initializer and without an explicit
        factory, so it falls back to the default factory when one is available. */
    method Run(defaultFactoryAvailable: bool) returns (r: ErrorCode, ghost phase: Phase)
      requires msvMain.None? && !handlerInstalled
      modifies this, env
      ensures r == Success <==> phase == Completed
      ensures phase == NotCreated ==>
        r == AllocationError && msvMain.None? && !handlerInstalled && env.log == old(env.log)
      ensures phase == InitializeFailed ==>
        IsFailed(test, r) && msvMain.Some? && !msvMain.value.initialized && !handlerInstalled
        && |old(env.log)| <= |env.log| && env.log[..|old(env.log)|] == old(env.log)
        && (!defaultFactoryAvailable ==> r == AllocationError && env.log == old(env.log))
        && (defaultFactoryAvailable ==>
              IsChain(test, InitSteps, env.log[|old(env.log)|..]) && r == ChainResult(test, env.log[|old(env.log)|..]))
      ensures phase == StartFailed ==>
        IsFailed(test, r) && msvMain.Some? && msvMain.value.initialized && !msvMain.value.running && handlerInstalled
        && |env.log| == |old(env.log)| + |InitSteps| + 1 && env.log[..|old(env.log)|] == old(env.log)
        && IsChain(test, InitSteps, env.log[|old(env.log)|..|old(env.log)| + |InitSteps|])
        && env.log[|env.log| - 1] == Call(ManagerStart, r)
      ensures phase == Completed ==>
        msvMain.None? && handlerInstalled
        && |env.log| == |old(env.log)| + |InitSteps| + 5 && env.log[..|old(env.log)|] == old(env.log)
        && IsChain(test, InitSteps, env.log[|old(env.log)|..|old(env.log)| + |InitSteps|])
        && [env.log[|env.log| - 5].request, env.log[|env.log| - 4].request, env.log[|env.log| - 3].request,
            env.log[|env.log| - 2].request, env.log[|env.log| - 1].request]
           == [ManagerStart, WaitForStopEvent, ManagerStop, ManagerUninitialize, ActiveConfigUninitialize]
    {
      var initializerCreated := TryAllocate();
      if !initializerCreated {
        return AllocationError, NotCreated;
      }
      var mainCreated := TryAllocate();
      if !mainCreated {
        return AllocationError, NotCreated;
      }
      var m := new MsvMain(env, test, true, false, defaultFactoryAvailable);
      msvMain := Some(m);
      r := m.Initialize();
      if IsFailed(test, r) {
        return r, InitializeFailed;
      }
      handlerInstalled := true;
      r := Serve(m);
      if IsFailed(test, r) {
        return r, StartFailed;
      }
      msvMain := None;
      r, phase := Success, Completed;
    }
  }
}
