/** MsvMainInitializer: builds the data the bootstrap needs (the two configuration key
    maps, the DLL list, the registration of the four example modules) and reads the
    logger and active-configuration settings back from the passive configuration.
    Every builder stops at the first failure and hands out its result only when every
    step succeeded. */
module MainInitializerLib {
  import opened Wrappers
  import opened ErrorCodes
  import opened Handles
  import opened Collaborators
  import opened FailFast
  import opened Identifiers
  import opened ContainersLib
  import opened ExampleModuleLib
  import opened ModulesLib

  const LOGGING_GROUP: string := "Logging"
  const ACTIVECFG_GROUP: string := "Active Config"

  /** The active key map every successful build yields: every key enabled and installed. */
  const ActiveDefaults: map<int, DefaultValue> := map[
    STATIC_MODULE1_INSTALLED := BoolDefault(true), STATIC_MODULE1_ENABLED := BoolDefault(true),
    STATIC_MODULE2_INSTALLED := BoolDefault(true), STATIC_MODULE2_ENABLED := BoolDefault(true),
    DYNAMIC_MODULE1_INSTALLED := BoolDefault(true), DYNAMIC_MODULE1_ENABLED := BoolDefault(true),
    DYNAMIC_MODULE2_INSTALLED := BoolDefault(true), DYNAMIC_MODULE2_ENABLED := BoolDefault(true)]

  /** The insertions of the active key map, in order. */
  const ActiveInserts: seq<Request> := [
    InsertKey(STATIC_MODULE1_INSTALLED), InsertKey(STATIC_MODULE1_ENABLED),
    InsertKey(STATIC_MODULE2_INSTALLED), InsertKey(STATIC_MODULE2_ENABLED),
    InsertKey(DYNAMIC_MODULE1_INSTALLED), InsertKey(DYNAMIC_MODULE1_ENABLED),
    InsertKey(DYNAMIC_MODULE2_INSTALLED), InsertKey(DYNAMIC_MODULE2_ENABLED)]

  /** The passive key map every successful build yields. */
  const PassiveDefaults: map<int, ConfigKey> := map[
    MAIN_LOG_FOLDER := ConfigKey(LOGGING_GROUP, "LogFolder", TextDefault("./log")),
    MAIN_LOG_FILE := ConfigKey(LOGGING_GROUP, "LogFile", TextDefault("msvlog.txt")),
    MAIN_LOG_FILEMAXSIZE := ConfigKey(LOGGING_GROUP, "MaxLogFileSize", NumberDefault(10485760)),
    MAIN_LOG_MAXFILES := ConfigKey(LOGGING_GROUP, "MaxLogFiles", NumberDefault(3)),
    MAIN_ACTIVECFG_PATH := ConfigKey(ACTIVECFG_GROUP, "ConfigPath", TextDefault("./config.db")),
    MAIN_ACTIVECFG_GROUP := ConfigKey(ACTIVECFG_GROUP, "ConfigGroup", TextDefault("MsvConfig"))]

  /** The insertions of the passive key map, in order. */
  const PassiveInserts: seq<Request> := [
    InsertKey(MAIN_LOG_FOLDER), InsertKey(MAIN_LOG_FILE), InsertKey(MAIN_LOG_FILEMAXSIZE),
    InsertKey(MAIN_LOG_MAXFILES), InsertKey(MAIN_ACTIVECFG_PATH), InsertKey(MAIN_ACTIVECFG_GROUP)]

  /** The DLL list every successful build yields. */
  const DllPaths: map<string, string> := map[
    SYS_OBJECT_ID_LAST := "msys.dll",
    EXAMPLEMODULE1_OBJECT_ID := "msvexamplemodule.dll",
    EXAMPLEMODULE2_OBJECT_ID := "msvexamplemodule.dll"]

  /** The additions to the DLL list, in order. */
  const DllAdds: seq<Request> := [
    Request.AddDll(SYS_OBJECT_ID_LAST), Request.AddDll(EXAMPLEMODULE1_OBJECT_ID), Request.AddDll(EXAMPLEMODULE2_OBJECT_ID)]

  /** How a registered module is made: a statically linked example module with its
      module and logger names, or a DLL module loaded under an object id. */
  datatype ModuleKind = StaticKind(moduleName: string, loggerName: string) | DllKind(objectId: string)

  /** One module registration: module id, the active keys that say whether it is
      enabled and installed, and how it is made. */
  datatype ModulePlan = ModulePlan(moduleId: int, enabledKey: int, installedKey: int, kind: ModuleKind)

  /** The modules, in the order they are added to the module manager. */
  const ModulePlans: seq<ModulePlan> := [
    ModulePlan(EXAMPLE_STATIC_MODULE_1, STATIC_MODULE1_ENABLED, STATIC_MODULE1_INSTALLED, StaticKind("MsvStaticModule_1", "MsvStatic_1")),
    ModulePlan(EXAMPLE_STATIC_MODULE_2, STATIC_MODULE2_ENABLED, STATIC_MODULE2_INSTALLED, StaticKind("MsvStaticModule_2", "MsvStatic_2")),
    ModulePlan(EXAMPLE_DYNAMIC_MODULE_1, DYNAMIC_MODULE1_ENABLED, DYNAMIC_MODULE1_INSTALLED, DllKind(EXAMPLEMODULE1_OBJECT_ID)),
    ModulePlan(EXAMPLE_DYNAMIC_MODULE_2, DYNAMIC_MODULE2_ENABLED, DYNAMIC_MODULE2_INSTALLED, DllKind(EXAMPLEMODULE2_OBJECT_ID))]

  /** The module manager calls of the registration, in order. */
  const ModuleAdds: seq<Request> := [
    ManagerAddModule(EXAMPLE_STATIC_MODULE_1), ManagerAddModule(EXAMPLE_STATIC_MODULE_2),
    ManagerAddModule(EXAMPLE_DYNAMIC_MODULE_1), ManagerAddModule(EXAMPLE_DYNAMIC_MODULE_2)]

  /** Registration `reg` is what the manager receives for `plan`. */
  ghost predicate Realizes(reg: Registration, plan: ModulePlan, dllFactory: Option<DllFactory>, activeCfg: Option<ActiveConfig>) {
    reg.moduleId == plan.moduleId
    && reg.configurator.activeConfig == activeCfg
    && reg.configurator.enabledKey == plan.enabledKey
    && reg.configurator.installedKey == plan.installedKey
    && match plan.kind
       case StaticKind(moduleName, loggerName) =>
         reg.unit.StaticUnit? && reg.unit.staticModule.moduleName == moduleName
         && reg.unit.staticModule.loggerName == loggerName && reg.unit.staticModule.dllFactory == dllFactory
       case DllKind(objectId) =>
         reg.unit.DllUnit? && reg.unit.adapter.moduleId == objectId
         && dllFactory == Some(reg.unit.adapter.dllFactory) && reg.unit.adapter.logger == None
  }

  /** The configuration keys of the four modules are exactly the active keys. */
  lemma ModulePlansUseActiveKeys()
    ensures (set i | 0 <= i < |ModulePlans| :: ModulePlans[i].enabledKey) + (set i | 0 <= i < |ModulePlans| :: ModulePlans[i].installedKey) == ActiveDefaults.Keys
  {
    var plans := ModulePlans;
    assert plans[0].enabledKey == 1 && plans[1].enabledKey == 3 && plans[2].enabledKey == 5 && plans[3].enabledKey == 7;
    assert plans[0].installedKey == 0 && plans[1].installedKey == 2 && plans[2].installedKey == 4 && plans[3].installedKey == 6;
    var enabled := set i | 0 <= i < |plans| :: plans[i].enabledKey;
    var installed := set i | 0 <= i < |plans| :: plans[i].installedKey;
    assert enabled == {1, 3, 5, 7};
    assert installed == {0, 2, 4, 6};
    assert ActiveDefaults.Keys == {0, 1, 2, 3, 4, 5, 6, 7};
  }

  /** No two modules share a configuration key, and the module ids are the four ids in order. */
  lemma ModulePlansAreDistinct()
    ensures forall i, j | 0 <= i < |ModulePlans| && 0 <= j < |ModulePlans| ::
      ModulePlans[i].enabledKey != ModulePlans[j].installedKey
      && (i != j ==> ModulePlans[i].enabledKey != ModulePlans[j].enabledKey && ModulePlans[i].installedKey != ModulePlans[j].installedKey)
    ensures forall i | 0 <= i < |ModulePlans| :: ModulePlans[i].moduleId == i && ModuleAdds[i] == ManagerAddModule(i)
  {
    forall i | 0 <= i < |ModulePlans|
      ensures ModulePlans[i].enabledKey == 2 * i + 1 && ModulePlans[i].installedKey == 2 * i
    {
    }
  }

  /** Every DLL module registered is listed under the library whose entry point
      exports its object id, and the system object under the system library. */
  lemma DllListCoversModules()
    ensures SYS_OBJECT_ID in DllPaths && DllPaths[SYS_OBJECT_ID] == "msys.dll"
    ensures forall i | 0 <= i < |ModulePlans| && ModulePlans[i].kind.DllKind? ::
      ModulePlans[i].kind.objectId in DllPaths && DllPaths[ModulePlans[i].kind.objectId] == "msvexamplemodule.dll"
    ensures forall id | id in DllPaths && id != SYS_OBJECT_ID :: exists i | 0 <= i < |ModulePlans| :: ModulePlans[i].kind == DllKind(id)
  {
    assert ModulePlans[2].kind == DllKind(EXAMPLEMODULE1_OBJECT_ID);
    assert ModulePlans[3].kind == DllKind(EXAMPLEMODULE2_OBJECT_ID);
  }

  /** One read of the passive configuration: the code GetValue answers and the value it
      writes to its output when it does not fail. */
  datatype Read<T> = Read(code: ErrorCode, value: T)

  /** The passive configuration as its readers see it: what each key reads as text and
      as a number. */
  datatype PassiveConfigView = PassiveConfigView(text: int -> Read<string>, number: int -> Read<nat>)

  /** The outputs of GetActiveConfigData. */
  datatype ActiveConfigData = ActiveConfigData(configPath: string, configGroup: string)

  /** The outputs of GetMsvLoggerProviderData. */
  datatype LoggerProviderData = LoggerProviderData(logFolder: string, logFile: string, maxLogFileSize: nat, maxLogFiles: nat)

  /** Reads the active configuration's path, then its group, stopping at the first read
      that fails: the outputs read before it are written, the others keep their value
      (a failing read is taken to leave its own output alone). */
  function GetActiveConfigData(t: FailureTest, cfg: PassiveConfigView, data: ActiveConfigData): (res: (ErrorCode, ActiveConfigData))
    ensures var codes := [cfg.text(MAIN_ACTIVECFG_PATH).code, cfg.text(MAIN_ACTIVECFG_GROUP).code];
      var k := FirstFailure(t, codes);
      && res.0 == (if k < |codes| then codes[k] else Success)
      && res.1.configPath == (if k > 0 then cfg.text(MAIN_ACTIVECFG_PATH).value else data.configPath)
      && res.1.configGroup == (if k > 1 then cfg.text(MAIN_ACTIVECFG_GROUP).value else data.configGroup)
  {
    var path := cfg.text(MAIN_ACTIVECFG_PATH);
    if IsFailed(t, path.code) then (path.code, data)
    else
      var group := cfg.text(MAIN_ACTIVECFG_GROUP);
      if IsFailed(t, group.code) then (group.code, data.(configPath := path.value))
      else (Success, ActiveConfigData(path.value, group.value))
  }

  /** Reads the log folder, the log file, the maximum log file size and the maximum
      number of log files, in that order, stopping at the first read that fails. */
  function GetMsvLoggerProviderData(t: FailureTest, cfg: PassiveConfigView, data: LoggerProviderData): (res: (ErrorCode, LoggerProviderData))
    ensures var codes := [cfg.text(MAIN_LOG_FOLDER).code, cfg.text(MAIN_LOG_FILE).code,
                          cfg.number(MAIN_LOG_FILEMAXSIZE).code, cfg.number(MAIN_LOG_MAXFILES).code];
      var k := FirstFailure(t, codes);
      && res.0 == (if k < |codes| then codes[k] else Success)
      && res.1.logFolder == (if k > 0 then cfg.text(MAIN_LOG_FOLDER).value else data.logFolder)
      && res.1.logFile == (if k > 1 then cfg.text(MAIN_LOG_FILE).value else data.logFile)
      && res.1.maxLogFileSize == (if k > 2 then cfg.number(MAIN_LOG_FILEMAXSIZE).value else data.maxLogFileSize)
      && res.1.maxLogFiles == (if k > 3 then cfg.number(MAIN_LOG_MAXFILES).value else data.maxLogFiles)
  {
    FirstFailureOfFour(t, cfg.text(MAIN_LOG_FOLDER).code, cfg.text(MAIN_LOG_FILE).code,
                       cfg.number(MAIN_LOG_FILEMAXSIZE).code, cfg.number(MAIN_LOG_MAXFILES).code);
    var folder := cfg.text(MAIN_LOG_FOLDER);
    if IsFailed(t, folder.code) then (folder.code, data)
    else
      var file := cfg.text(MAIN_LOG_FILE);
      if IsFailed(t, file.code) then (file.code, data.(logFolder := folder.value))
      else
        var size := cfg.number(MAIN_LOG_FILEMAXSIZE);
        if IsFailed(t, size.code) then (size.code, data.(logFolder := folder.value, logFile := file.value))
        else
          var files := cfg.number(MAIN_LOG_MAXFILES);
          if IsFailed(t, files.code) then (files.code, data.(logFolder := folder.value, logFile := file.value, maxLogFileSize := size.value))
          else (Success, LoggerProviderData(folder.value, file.value, size.value, files.value))
  }

  /** InsertConfigKey for the active key map: a missing default value is an allocation
      failure and leaves the map alone; otherwise the map's own insertion decides. */
  method InsertActiveKey(keyMap: KeyMap<DefaultValue>, key: int, defaultValue: Option<DefaultValue>) returns (r: ErrorCode)
    modifies keyMap`entries, keyMap.env
    ensures defaultValue.None? ==> r == AllocationError && keyMap.entries == old(keyMap.entries) && keyMap.env.log == old(keyMap.env.log)
    ensures defaultValue.Some? ==> keyMap.env.log == old(keyMap.env.log) + [Call(InsertKey(key), r)]
    ensures defaultValue.Some? && !IsFailed(keyMap.test, r) ==> keyMap.entries == old(keyMap.entries)[key := defaultValue.value]
    ensures defaultValue.Some? && IsFailed(keyMap.test, r) ==> keyMap.entries == old(keyMap.entries)
  {
    if defaultValue.None? {
      return AllocationError;
    }
    r := keyMap.InsertKeyData(key, defaultValue.value);
  }

  /** InsertConfigKey for the passive key map: as the active one, and the key itself is
      one more allocation that may fail before the map is asked. */
  method InsertPassiveKey(keyMap: KeyMap<ConfigKey>, key: int, group: string, name: string, defaultValue: Option<DefaultValue>) returns (r: ErrorCode)
    modifies keyMap`entries, keyMap.env
    ensures defaultValue.None? ==> r == AllocationError
    ensures (r == AllocationError && keyMap.entries == old(keyMap.entries) && keyMap.env.log == old(keyMap.env.log))
         || (defaultValue.Some? && keyMap.env.log == old(keyMap.env.log) + [Call(InsertKey(key), r)]
             && keyMap.entries == if IsFailed(keyMap.test, r) then old(keyMap.entries) else old(keyMap.entries)[key := ConfigKey(group, name, defaultValue.value)])
  {
    if defaultValue.None? {
      return AllocationError;
    }
    var ok := TryAllocate();
    if !ok {
      return AllocationError;
    }
    r := keyMap.InsertKeyData(key, ConfigKey(group, name, defaultValue.value));
  }

  /** AddModule for a module already made (both the owning and the raw-pointer form):
      a missing module, or a failed allocation of its configurator, is an allocation
      failure before the manager is called; otherwise the manager's answer is returned. */
  method AddModule(manager: ModuleManager, moduleId: int, unit: Option<ModuleUnit>, activeCfg: Option<ActiveConfig>, enabledKey: int, installedKey: int)
    returns (r: ErrorCode)
    modifies manager`offered, manager.env
    ensures unit.None? ==> r == AllocationError
    ensures (r == AllocationError && manager.offered == old(manager.offered) && manager.env.log == old(manager.env.log))
         || (unit.Some? && manager.env.log == old(manager.env.log) + [Call(ManagerAddModule(moduleId), r)]
             && |manager.offered| == |old(manager.offered)| + 1 && manager.offered[..|old(manager.offered)|] == old(manager.offered)
             && manager.offered[|old(manager.offered)|].moduleId == moduleId
             && manager.offered[|old(manager.offered)|].unit == unit.value
             && manager.offered[|old(manager.offered)|].configurator.activeConfig == activeCfg
             && manager.offered[|old(manager.offered)|].configurator.enabledKey == enabledKey
             && manager.offered[|old(manager.offered)|].configurator.installedKey == installedKey)
  {
    if unit.None? {
      return AllocationError;
    }
    var ok := TryAllocate();
    if !ok {
      return AllocationError;
    }
    var configurator := new ModuleConfigurator(activeCfg, enabledKey, installedKey);
    r := manager.AddModule(moduleId, unit.value, configurator);
  }

  /** AddModule for a DLL module: the adapter is made first (refused without a factory),
      then added; a manager answer that does not fail is reported as success. */
  method AddDllModule(manager: ModuleManager, moduleId: int, modules: Modules, objectId: string, dllFactory: Option<DllFactory>,
                      activeCfg: Option<ActiveConfig>, enabledKey: int, installedKey: int, test: FailureTest)
    returns (r: ErrorCode)
    modifies manager`offered, manager.env
    ensures dllFactory.None? ==> r == InvalidDataError
    ensures r == Success || IsFailed(test, r)
    ensures ((r == AllocationError || r == InvalidDataError) && manager.offered == old(manager.offered) && manager.env.log == old(manager.env.log))
         || (dllFactory.Some? && |manager.env.log| == |old(manager.env.log)| + 1
             && manager.env.log == old(manager.env.log) + [Call(ManagerAddModule(moduleId), manager.env.log[|old(manager.env.log)|].code)]
             && r == (if IsFailed(test, manager.env.log[|old(manager.env.log)|].code) then manager.env.log[|old(manager.env.log)|].code else Success)
             && |manager.offered| == |old(manager.offered)| + 1 && manager.offered[..|old(manager.offered)|] == old(manager.offered)
             && manager.offered[|old(manager.offered)|].moduleId == moduleId
             && manager.offered[|old(manager.offered)|].unit.DllUnit?
             && manager.offered[|old(manager.offered)|].unit.adapter.moduleId == objectId
             && dllFactory == Some(manager.offered[|old(manager.offered)|].unit.adapter.dllFactory)
             && manager.offered[|old(manager.offered)|].unit.adapter.logger == None
             && manager.offered[|old(manager.offered)|].configurator.activeConfig == activeCfg
             && manager.offered[|old(manager.offered)|].configurator.enabledKey == enabledKey
             && manager.offered[|old(manager.offered)|].configurator.installedKey == installedKey)
  {
    var code, adapter := modules.GetDllModule(None, objectId, dllFactory, None);
    if IsFailed(test, code) {
      return code;
    }
    code := AddModule(manager, moduleId, Some(DllUnit(adapter.value)), activeCfg, enabledKey, installedKey);
    if IsFailed(test, code) {
      return code;
    }
    r := Success;
  }

  /** `new (std::nothrow) MsvExampleModule(...)` for a statically linked module. */
  method NewStaticModule(moduleName: string, loggerName: string, dllFactory: Option<DllFactory>, env: Environment, test: FailureTest)
    returns (unit: Option<ModuleUnit>)
    ensures unit.Some? ==>
      unit.value.StaticUnit? && fresh(unit.value.staticModule) && unit.value.staticModule.moduleName == moduleName
      && unit.value.staticModule.loggerName == loggerName && unit.value.staticModule.dllFactory == dllFactory
  {
    var ok := TryAllocate();
    if !ok {
      return None;
    }
    var m := new ExampleModule(moduleName, loggerName, dllFactory, env, test);
    unit := Some(StaticUnit(m));
  }

  /** One insertion of the active key map build, as a step of its fail-fast chain over
      the log suffix from `start`: a new default value, then InsertConfigKey. */
  method ActiveStep(keyMap: KeyMap<DefaultValue>, key: int, value: DefaultValue, ghost start: nat, ghost k: nat) returns (r: ErrorCode)
    requires |keyMap.env.log| == start + k && Progress(keyMap.test, ActiveInserts, keyMap.env.log[start..])
    requires k < |ActiveInserts| && ActiveInserts[k] == InsertKey(key)
    modifies keyMap`entries, keyMap.env
    ensures start <= |keyMap.env.log| && keyMap.env.log[..start] == old(keyMap.env.log)[..start]
    ensures IsFailed(keyMap.test, r) ==> IsCutChain(keyMap.test, ActiveInserts, {AllocationError}, keyMap.env.log[start..], r)
    ensures !IsFailed(keyMap.test, r) ==>
      Progress(keyMap.test, ActiveInserts, keyMap.env.log[start..]) && |keyMap.env.log| == start + k + 1
      && keyMap.entries == old(keyMap.entries)[key := value]
  {
    var d := NewDefault(value);
    ghost var before := keyMap.env.log;
    r := InsertActiveKey(keyMap, key, d);
    CutStep(keyMap.test, ActiveInserts, {AllocationError}, start, before, r, keyMap.env.log);
  }

  /** The two keys of one module (installed, then enabled) in the active key map build. */
  method ActivePairStep(keyMap: KeyMap<DefaultValue>, installedKey: int, enabledKey: int, ghost start: nat, ghost k: nat) returns (r: ErrorCode)
    requires |keyMap.env.log| == start + k && Progress(keyMap.test, ActiveInserts, keyMap.env.log[start..])
    requires k + 1 < |ActiveInserts| && ActiveInserts[k] == InsertKey(installedKey) && ActiveInserts[k + 1] == InsertKey(enabledKey)
    modifies keyMap`entries, keyMap.env
    ensures start <= |keyMap.env.log| && keyMap.env.log[..start] == old(keyMap.env.log)[..start]
    ensures IsFailed(keyMap.test, r) ==> IsCutChain(keyMap.test, ActiveInserts, {AllocationError}, keyMap.env.log[start..], r)
    ensures !IsFailed(keyMap.test, r) ==>
      Progress(keyMap.test, ActiveInserts, keyMap.env.log[start..]) && |keyMap.env.log| == start + k + 2
      && keyMap.entries == old(keyMap.entries)[installedKey := BoolDefault(true)][enabledKey := BoolDefault(true)]
  {
    r := ActiveStep(keyMap, installedKey, BoolDefault(true), start, k);
    if IsFailed(keyMap.test, r) {
      return;
    }
    r := ActiveStep(keyMap, enabledKey, BoolDefault(true), start, k + 1);
  }

  /** One insertion of the passive key map build, as a step of its fail-fast chain. */
  method PassiveStep(keyMap: KeyMap<ConfigKey>, key: int, group: string, name: string, value: DefaultValue, ghost start: nat, ghost k: nat) returns (r: ErrorCode)
    requires |keyMap.env.log| == start + k && Progress(keyMap.test, PassiveInserts, keyMap.env.log[start..])
    requires k < |PassiveInserts| && PassiveInserts[k] == InsertKey(key)
    modifies keyMap`entries, keyMap.env
    ensures start <= |keyMap.env.log| && keyMap.env.log[..start] == old(keyMap.env.log)[..start]
    ensures IsFailed(keyMap.test, r) ==> IsCutChain(keyMap.test, PassiveInserts, {AllocationError}, keyMap.env.log[start..], r)
    ensures !IsFailed(keyMap.test, r) ==>
      Progress(keyMap.test, PassiveInserts, keyMap.env.log[start..]) && |keyMap.env.log| == start + k + 1
      && keyMap.entries == old(keyMap.entries)[key := ConfigKey(group, name, value)]
  {
    var d := NewDefault(value);
    ghost var before := keyMap.env.log;
    r := InsertPassiveKey(keyMap, key, group, name, d);
    CutStep(keyMap.test, PassiveInserts, {AllocationError}, start, before, r, keyMap.env.log);
  }

  /** Two keys of one group in the passive key map build. */
  method PassivePairStep(keyMap: KeyMap<ConfigKey>, group: string, key1: int, name1: string, value1: DefaultValue,
                         key2: int, name2: string, value2: DefaultValue, ghost start: nat, ghost k: nat) returns (r: ErrorCode)
    requires |keyMap.env.log| == start + k && Progress(keyMap.test, PassiveInserts, keyMap.env.log[start..])
    requires k + 1 < |PassiveInserts| && PassiveInserts[k] == InsertKey(key1) && PassiveInserts[k + 1] == InsertKey(key2)
    modifies keyMap`entries, keyMap.env
    ensures start <= |keyMap.env.log| && keyMap.env.log[..start] == old(keyMap.env.log)[..start]
    ensures IsFailed(keyMap.test, r) ==> IsCutChain(keyMap.test, PassiveInserts, {AllocationError}, keyMap.env.log[start..], r)
    ensures !IsFailed(keyMap.test, r) ==>
      Progress(keyMap.test, PassiveInserts, keyMap.env.log[start..]) && |keyMap.env.log| == start + k + 2
      && keyMap.entries == old(keyMap.entries)[key1 := ConfigKey(group, name1, value1)][key2 := ConfigKey(group, name2, value2)]
  {
    r := PassiveStep(keyMap, key1, group, name1, value1, start, k);
    if IsFailed(keyMap.test, r) {
      return;
    }
    r := PassiveStep(keyMap, key2, group, name2, value2, start, k + 1);
  }

  /** One addition of the DLL list build, as a step of its fail-fast chain. */
  method DllStep(list: DllList, objectId: string, path: string, ghost start: nat) returns (r: ErrorCode)
    requires start <= |list.env.log| && Progress(list.test, DllAdds, list.env.log[start..])
    requires |list.env.log| - start < |DllAdds| && DllAdds[|list.env.log| - start] == Request.AddDll(objectId)
    modifies list`entries, list.env
    ensures start <= |list.env.log| && list.env.log[..start] == old(list.env.log)[..start]
    ensures IsFailed(list.test, r) ==> IsCutChain(list.test, DllAdds, {AllocationError}, list.env.log[start..], r)
    ensures !IsFailed(list.test, r) ==>
      Progress(list.test, DllAdds, list.env.log[start..]) && |list.env.log| == |old(list.env.log)| + 1
      && list.entries == old(list.entries)[objectId := path]
  {
    ghost var before := list.env.log;
    r := list.AddDll(objectId, path);
    CutStep(list.test, DllAdds, {AllocationError}, start, before, r, list.env.log);
  }

  /** The registrations offered from index `from` on realize the first module plans. */
  ghost predicate Registered(offered: seq<Registration>, from: nat, dllFactory: Option<DllFactory>, activeCfg: Option<ActiveConfig>) {
    from <= |offered| && |offered| - from <= |ModulePlans|
    && forall i | from <= i < |offered| :: Realizes(offered[i], ModulePlans[i - from], dllFactory, activeCfg)
  }

  /** The part of the module manager's state one registration step may change. */
  ghost predicate StepFrame(manager: ModuleManager, start: nat, from: nat, beforeLog: seq<Call>, beforeOffered: seq<Registration>)
    reads manager, manager.env
  {
    start <= |beforeLog| && start <= |manager.env.log| && manager.env.log[..start] == beforeLog[..start]
    && from <= |beforeOffered| && from <= |manager.offered| && manager.offered[..from] == beforeOffered[..from]
  }

  /** One static module of the registration, as a step of its fail-fast chain. */
  method StaticModuleStep(manager: ModuleManager, moduleId: int, moduleName: string, loggerName: string, dllFactory: Option<DllFactory>,
                          activeCfg: Option<ActiveConfig>, enabledKey: int, installedKey: int, env: Environment, test: FailureTest,
                          ghost start: nat, ghost from: nat)
    returns (r: ErrorCode)
    requires start <= |manager.env.log| && Progress(test, ModuleAdds, manager.env.log[start..])
    requires Registered(manager.offered, from, dllFactory, activeCfg) && |manager.offered| - from == |manager.env.log| - start
    requires |manager.env.log| - start < |ModulePlans|
    requires ModulePlans[|manager.env.log| - start] == ModulePlan(moduleId, enabledKey, installedKey, StaticKind(moduleName, loggerName))
    modifies manager`offered, manager.env
    ensures StepFrame(manager, start, from, old(manager.env.log), old(manager.offered)) && |manager.env.log| <= |old(manager.env.log)| + 1
    ensures Registered(manager.offered, from, dllFactory, activeCfg) && |manager.offered| - from == |manager.env.log| - start
    ensures IsFailed(test, r) ==> IsCutChain(test, ModuleAdds, {AllocationError, InvalidDataError}, manager.env.log[start..], r)
    ensures !IsFailed(test, r) ==> Progress(test, ModuleAdds, manager.env.log[start..]) && |manager.env.log| == |old(manager.env.log)| + 1
  {
    ghost var before := manager.env.log;
    var unit := NewStaticModule(moduleName, loggerName, dllFactory, env, test);
    r := AddModule(manager, moduleId, unit, activeCfg, enabledKey, installedKey);
    CutStep(test, ModuleAdds, {AllocationError, InvalidDataError}, start, before, r, manager.env.log);
  }

  /** One DLL module of the registration, as a step of its fail-fast chain. */
  method DllModuleStep(manager: ModuleManager, moduleId: int, modules: Modules, objectId: string, dllFactory: Option<DllFactory>,
                       activeCfg: Option<ActiveConfig>, enabledKey: int, installedKey: int, test: FailureTest,
                       ghost start: nat, ghost from: nat)
    returns (r: ErrorCode)
    requires start <= |manager.env.log| && Progress(test, ModuleAdds, manager.env.log[start..])
    requires Registered(manager.offered, from, dllFactory, activeCfg) && |manager.offered| - from == |manager.env.log| - start
    requires |manager.env.log| - start < |ModulePlans|
    requires ModulePlans[|manager.env.log| - start] == ModulePlan(moduleId, enabledKey, installedKey, DllKind(objectId))
    modifies manager`offered, manager.env
    ensures StepFrame(manager, start, from, old(manager.env.log), old(manager.offered)) && |manager.env.log| <= |old(manager.env.log)| + 1
    ensures Registered(manager.offered, from, dllFactory, activeCfg) && |manager.offered| - from == |manager.env.log| - start
    ensures dllFactory.None? ==> manager.env.log == old(manager.env.log) && r == InvalidDataError
    ensures IsFailed(test, r) ==> IsCutChain(test, ModuleAdds, {AllocationError, InvalidDataError}, manager.env.log[start..], r)
    ensures !IsFailed(test, r) ==> r == Success && Progress(test, ModuleAdds, manager.env.log[start..]) && |manager.env.log| == |old(manager.env.log)| + 1
  {
    ghost var before := manager.env.log;
    r := AddDllModule(manager, moduleId, modules, objectId, dllFactory, activeCfg, enabledKey, installedKey, test);
    if manager.env.log == before {
      CutStep(test, ModuleAdds, {AllocationError, InvalidDataError}, start, before, r, manager.env.log);
    } else {
      CutStep(test, ModuleAdds, {AllocationError, InvalidDataError}, start, before, manager.env.log[|before|].code, manager.env.log);
    }
  }

  class MainInitializer {
    /** the collaborators answering the containers this initializer fills */
    const env: Environment
    const test: FailureTest

    constructor (env: Environment, test: FailureTest)
      ensures this.env == env && this.test == test
    {
      this.env, this.test := env, test;
    }

    /** Builds the active key map; on success it holds exactly the eight module keys,
        each defaulting to true, and only then is it handed out. */
    method InitializeAndGetActiveConfigKeyMap(out: Option<KeyMap<DefaultValue>>) returns (r: ErrorCode, out': Option<KeyMap<DefaultValue>>)
      modifies env
      ensures Extends(old(env.log), env.log)
      ensures IsCutChain(test, ActiveInserts, {AllocationError}, env.log[|old(env.log)|..], r)
      ensures r == Success ==> out'.Some? && fresh(out'.value) && out'.value.entries == ActiveDefaults
      ensures r != Success ==> out' == out
    {
      ghost var start := |env.log|;
      ghost var before := env.log;
      var ok := TryAllocate();
      if !ok {
        CutStep(test, ActiveInserts, {AllocationError}, start, before, AllocationError, env.log);
        return AllocationError, out;
      }
      var keyMap := new KeyMap<DefaultValue>(env, test);
      r := ActivePairStep(keyMap, STATIC_MODULE1_INSTALLED, STATIC_MODULE1_ENABLED, start, 0);
      if IsFailed(test, r) { return r, out; }
      r := ActivePairStep(keyMap, STATIC_MODULE2_INSTALLED, STATIC_MODULE2_ENABLED, start, 2);
      if IsFailed(test, r) { return r, out; }
      r := ActivePairStep(keyMap, DYNAMIC_MODULE1_INSTALLED, DYNAMIC_MODULE1_ENABLED, start, 4);
      if IsFailed(test, r) { return r, out; }
      r := ActivePairStep(keyMap, DYNAMIC_MODULE2_INSTALLED, DYNAMIC_MODULE2_ENABLED, start, 6);
      if IsFailed(test, r) { return r, out; }
      CutDone(test, ActiveInserts, {AllocationError}, env.log[start..]);
      r, out' := Success, Some(keyMap);
    }

    /** Builds the passive key map; on success it holds exactly the six keys with their
        groups, names and defaults, and only then is it handed out. */
    method InitializeAndGetPassiveConfigKeyMap(out: Option<KeyMap<ConfigKey>>) returns (r: ErrorCode, out': Option<KeyMap<ConfigKey>>)
      modifies env
      ensures Extends(old(env.log), env.log)
      ensures IsCutChain(test, PassiveInserts, {AllocationError}, env.log[|old(env.log)|..], r)
      ensures r == Success ==> out'.Some? && fresh(out'.value) && out'.value.entries == PassiveDefaults
      ensures r != Success ==> out' == out
    {
      ghost var start := |env.log|;
      ghost var before := env.log;
      var ok := TryAllocate();
      if !ok {
        CutStep(test, PassiveInserts, {AllocationError}, start, before, AllocationError, env.log);
        return AllocationError, out;
      }
      var keyMap := new KeyMap<ConfigKey>(env, test);
      r := PassivePairStep(keyMap, LOGGING_GROUP, MAIN_LOG_FOLDER, "LogFolder", TextDefault("./log"),
                           MAIN_LOG_FILE, "LogFile", TextDefault("msvlog.txt"), start, 0);
      if IsFailed(test, r) { return r, out; }
      r := PassivePairStep(keyMap, LOGGING_GROUP, MAIN_LOG_FILEMAXSIZE, "MaxLogFileSize", NumberDefault(10485760),
                           MAIN_LOG_MAXFILES, "MaxLogFiles", NumberDefault(3), start, 2);
      if IsFailed(test, r) { return r, out; }
      r := PassivePairStep(keyMap, ACTIVECFG_GROUP, MAIN_ACTIVECFG_PATH, "ConfigPath", TextDefault("./config.db"),
                           MAIN_ACTIVECFG_GROUP, "ConfigGroup", TextDefault("MsvConfig"), start, 4);
      if IsFailed(test, r) { return r, out; }
      CutDone(test, PassiveInserts, {AllocationError}, env.log[start..]);
      r, out' := Success, Some(keyMap);
    }

    /** Builds the DLL list; on success it maps the system object to the system library
        and both example modules to the example-module library. */
    method InitializeAndGetDllList(out: Option<DllList>) returns (r: ErrorCode, out': Option<DllList>)
      modifies env
      ensures Extends(old(env.log), env.log)
      ensures IsCutChain(test, DllAdds, {AllocationError}, env.log[|old(env.log)|..], r)
      ensures r == Success ==> out'.Some? && fresh(out'.value) && out'.value.entries == DllPaths
      ensures r != Success ==> out' == out
    {
      ghost var start := |env.log|;
      ghost var before := env.log;
      var ok := TryAllocate();
      if !ok {
        CutStep(test, DllAdds, {AllocationError}, start, before, AllocationError, env.log);
        return AllocationError, out;
      }
      var list := new DllList(env, test);
      r := DllStep(list, SYS_OBJECT_ID_LAST, "msys.dll", start);
      if IsFailed(test, r) { return r, out; }
      r := DllStep(list, EXAMPLEMODULE1_OBJECT_ID, "msvexamplemodule.dll", start);
      if IsFailed(test, r) { return r, out; }
      r := DllStep(list, EXAMPLEMODULE2_OBJECT_ID, "msvexamplemodule.dll", start);
      if IsFailed(test, r) { return r, out; }
      CutDone(test, DllAdds, {AllocationError}, env.log[start..]);
      r, out' := Success, Some(list);
    }

    /** Adds the two static and the two DLL example modules to the module manager, in
        that order, each with its id and its (enabled, installed) key pair; it stops at
        the first failure. Without a DLL factory the first DLL module is refused. */
    method AddModulesToModuleManager(manager: ModuleManager, modules: Modules, dllFactory: Option<DllFactory>, activeCfg: Option<ActiveConfig>)
      returns (r: ErrorCode)
      modifies manager`offered, manager.env
      ensures |old(manager.env.log)| <= |manager.env.log| && manager.env.log[..|old(manager.env.log)|] == old(manager.env.log)
      ensures IsCutChain(test, ModuleAdds, {AllocationError, InvalidDataError}, manager.env.log[|old(manager.env.log)|..], r)
      ensures |old(manager.offered)| <= |manager.offered| && manager.offered[..|old(manager.offered)|] == old(manager.offered)
      ensures Registered(manager.offered, |old(manager.offered)|, dllFactory, activeCfg)
      ensures |manager.offered| - |old(manager.offered)| == |manager.env.log| - |old(manager.env.log)|
      ensures dllFactory.None? ==> |manager.env.log| - |old(manager.env.log)| <= 2
    {
      ghost var start := |manager.env.log|;
      ghost var from := |manager.offered|;
      r := StaticModuleStep(manager, EXAMPLE_STATIC_MODULE_1, "MsvStaticModule_1", "MsvStatic_1", dllFactory, activeCfg,
                            STATIC_MODULE1_ENABLED, STATIC_MODULE1_INSTALLED, env, test, start, from);
      if IsFailed(test, r) { return r; }
      r := StaticModuleStep(manager, EXAMPLE_STATIC_MODULE_2, "MsvStaticModule_2", "MsvStatic_2", dllFactory, activeCfg,
                            STATIC_MODULE2_ENABLED, STATIC_MODULE2_INSTALLED, env, test, start, from);
      if IsFailed(test, r) { return r; }
      r := DllModuleStep(manager, EXAMPLE_DYNAMIC_MODULE_1, modules, EXAMPLEMODULE1_OBJECT_ID, dllFactory, activeCfg,
                         DYNAMIC_MODULE1_ENABLED, DYNAMIC_MODULE1_INSTALLED, test, start, from);
      if IsFailed(test, r) { return r; }
      r := DllModuleStep(manager, EXAMPLE_DYNAMIC_MODULE_2, modules, EXAMPLEMODULE2_OBJECT_ID, dllFactory, activeCfg,
                         DYNAMIC_MODULE2_ENABLED, DYNAMIC_MODULE2_INSTALLED, test, start, from);
      if IsFailed(test, r) { return r; }
      CutDone(test, ModuleAdds, {AllocationError, InvalidDataError}, manager.env.log[start..]);
      r := Success;
    }
  }
}
