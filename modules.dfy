/** MsvModules: DLL module adapters and module configurators made after a null check,
    fresh module managers, and one cached shared module manager. */
module ModulesLib {
  import opened Wrappers
  import opened ErrorCodes
  import opened Handles
  import opened Collaborators
  import opened ExampleModuleLib

  /** A module that lives in a DLL, loaded through the factory under its object id. */
  class DllModuleAdapter {
    const moduleId: string
    const dllFactory: DllFactory
    const logger: Option<Logger>

    constructor (moduleId: string, dllFactory: DllFactory, logger: Option<Logger>)
      ensures this.moduleId == moduleId && this.dllFactory == dllFactory && this.logger == logger
    {
      this.moduleId, this.dllFactory, this.logger := moduleId, dllFactory, logger;
    }
  }

  /** Tells the module manager whether a module is enabled and installed, from two keys
      of the active configuration. */
  class ModuleConfigurator {
    const activeConfig: Option<ActiveConfig>
    const enabledKey: int
    const installedKey: int

    constructor (activeConfig: Option<ActiveConfig>, enabledKey: int, installedKey: int)
      ensures this.activeConfig == activeConfig && this.enabledKey == enabledKey && this.installedKey == installedKey
    {
      this.activeConfig, this.enabledKey, this.installedKey := activeConfig, enabledKey, installedKey;
    }
  }

  /** A module handed to the manager: linked in statically, or an adapter over a DLL. */
  datatype ModuleUnit = StaticUnit(staticModule: ExampleModule) | DllUnit(adapter: DllModuleAdapter)

  /** One AddModule request: the module id, the module and its configurator. */
  datatype Registration = Registration(moduleId: int, unit: ModuleUnit, configurator: ModuleConfigurator)

  /** The module manager; what it does with a module is outside the model, so it only
      keeps the registrations it was offered and answers each with a code. */
  class ModuleManager {
    const logger: Option<Logger>
    const env: Environment
    var offered: seq<Registration>

    constructor (logger: Option<Logger>, env: Environment)
      ensures this.logger == logger && this.env == env && offered == []
    {
      this.logger, this.env := logger, env;
      offered := [];
    }

    method AddModule(moduleId: int, unit: ModuleUnit, configurator: ModuleConfigurator) returns (r: ErrorCode)
      modifies this`offered, env
      ensures offered == old(offered) + [Registration(moduleId, unit, configurator)]
      ensures env.log == old(env.log) + [Call(ManagerAddModule(moduleId), r)]
    {
      r := env.Invoke(ManagerAddModule(moduleId));
      offered := offered + [Registration(moduleId, unit, configurator)];
    }
  }

  class Modules {
    /** the collaborators of the managers this object creates */
    const env: Environment
    /** m_spSharedModuleManager */
    var sharedManager: Option<ModuleManager>

    constructor (env: Environment)
      ensures this.env == env && sharedManager == None
    {
      this.env := env;
      sharedManager := None;
    }

    /** A new adapter for DLL object `moduleId`; refused without a factory. */
    method GetDllModule(out: Option<DllModuleAdapter>, moduleId: string, dllFactory: Option<DllFactory>, logger: Option<Logger>)
      returns (r: ErrorCode, out': Option<DllModuleAdapter>)
      ensures dllFactory.None? ==> r == InvalidDataError
      ensures dllFactory.Some? ==> r == Success || r == AllocationError
      ensures r == Success ==>
        out'.Some? && fresh(out'.value) && out'.value.moduleId == moduleId
        && out'.value.dllFactory == dllFactory.value && out'.value.logger == logger
      ensures r != Success ==> out' == out
    {
      if dllFactory.None? {
        return InvalidDataError, out;
      }
      var ok := TryAllocate();
      if !ok {
        return AllocationError, out;
      }
      var adapter := new DllModuleAdapter(moduleId, dllFactory.value, logger);
      r, out' := Success, Some(adapter);
    }

    /** A new configurator over the two keys; refused without an active configuration. */
    method GetModuleConfigurator(out: Option<ModuleConfigurator>, activeConfig: Option<ActiveConfig>, enabledKey: int, installedKey: int)
      returns (r: ErrorCode, out': Option<ModuleConfigurator>)
      ensures activeConfig.None? ==> r == InvalidDataError
      ensures activeConfig.Some? ==> r == Success || r == AllocationError
      ensures r == Success ==>
        out'.Some? && fresh(out'.value) && out'.value.activeConfig == activeConfig
        && out'.value.enabledKey == enabledKey && out'.value.installedKey == installedKey
      ensures r != Success ==> out' == out
    {
      if activeConfig.None? {
        return InvalidDataError, out;
      }
      var ok := TryAllocate();
      if !ok {
        return AllocationError, out;
      }
      var configurator := new ModuleConfigurator(activeConfig, enabledKey, installedKey);
      r, out' := Success, Some(configurator);
    }

    /** A new, empty module manager on every successful call. */
    method GetModuleManager(out: Option<ModuleManager>, logger: Option<Logger>) returns (r: ErrorCode, out': Option<ModuleManager>)
      ensures r == Success || r == AllocationError
      ensures r == Success ==> out'.Some? && fresh(out'.value) && out'.value.logger == logger && out'.value.offered == []
      ensures r == AllocationError ==> out' == out
    {
      var ok := TryAllocate();
      if !ok {
        return AllocationError, out;
      }
      var manager := new ModuleManager(logger, env);
      r, out' := Success, Some(manager);
    }

    /** The same manager on every success; the logger matters only when it is first
        created, and a failed creation leaves the slot empty. */
    method GetSharedModuleManager(out: Option<ModuleManager>, logger: Option<Logger>) returns (r: ErrorCode, out': Option<ModuleManager>)
      modifies this`sharedManager
      ensures old(sharedManager).Some? ==> r == Success && sharedManager == old(sharedManager) && out' == sharedManager
      ensures old(sharedManager).None? ==> r == Success || r == AllocationError
      ensures old(sharedManager).None? && r == Success ==>
        sharedManager.Some? && fresh(sharedManager.value) && sharedManager.value.logger == logger && out' == sharedManager
      ensures r == AllocationError ==> sharedManager == None && out' == out
    {
      if sharedManager.None? {
        var code, created := GetModuleManager(sharedManager, logger);
        sharedManager := created;
        if code != Success {
          return code, out;
        }
      }
      r, out' := Success, sharedManager;
    }
  }

  /** Two shared requests yield the identical manager; two plain requests yield two
      distinct managers. */
  method SharedVersusFresh(modules: Modules) returns (a: Option<ModuleManager>, b: Option<ModuleManager>, c: Option<ModuleManager>, d: Option<ModuleManager>)
    modifies modules
    ensures a.Some? && b.Some? ==> a == b
    ensures c.Some? && d.Some? ==> c != d
  {
    var r1, r2, r3, r4;
    r1, a := modules.GetSharedModuleManager(None, None);
    r2, b := modules.GetSharedModuleManager(None, None);
    r3, c := modules.GetModuleManager(None, None);
    r4, d := modules.GetModuleManager(None, None);
  }
}
