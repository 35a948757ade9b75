# msys lifecycle core in Dafny

This project models the core of the msys application runtime skeleton. The runtime boots a
process in an ordered sequence of subsystem initializations, then hosts modules through a
four-operation lifecycle (Initialize, Uninitialize, Start, Stop). The model covers:

- **The bootstrap `MsvMain`** (`Bootstrap.MsvMain`). Its `Initialize` is a six-step
  fail-fast chain: passive config, logging, sys, active config, threading, module manager.
  `Start` and `Stop` delegate to the module manager. `Uninitialize` always finishes tearing
  down. `OnSignal` sets the stop flag only once initialized.
- **The process entry point and its signal handler** (`Driver`).
- **The main initializer** (`MainInitializerLib`). It builds the active and passive
  configuration key maps and the DLL list, registers the four example modules with the
  module manager, and reads logger and active-config data from the passive configuration.
- **The example module** (`ExampleModuleLib.ExampleModule`). Its lifecycle is guarded by
  the DLL module base, the threading service and a unique worker.
- **The service objects' factories:**
  - logging (`LoggingLib`);
  - the system object with its three caches (`SysLib`);
  - configuration (`ConfigurationLib`);
  - threading (`ThreadingLib`);
  - modules (`ModulesLib`).
- **The two DLL entry points:**
  - the system DLL keeps only a weak reference to its object (`SysDllLib`);
  - the example-module DLL dispatches on the object id (`ExampleModuleDllLib`).

Conventions:

- **Error codes.** Status codes are `ErrorCodes.ErrorCode`. The macro `MSV_FAILED` is
  defined outside the modelled files. It is a parameter, `FailureTest`:
  - success never fails;
  - every error code fails;
  - whether the info codes fail is left open, but one flag, `infoFails`, decides it for
    every info code alike.
- **Collaborators.** Components whose code is not part of this model are opaque: the
  module manager's lifecycle, the passive and active configuration back ends, the key maps,
  the DLL list and the DLL factory. They are `Collaborators.Environment`, which records
  every request in `log` and may answer any code. "Later steps are not invoked" then reads
  as: the new log entries form a fail-fast chain (`FailFast.IsChain`, or
  `FailFast.IsCutChain` when a step can also be refused before its call).
- **Allocation.** `new (std::nothrow)` may fail (`Handles.TryAllocate`); a successful
  allocation yields a fresh object.
- **Out-parameters.** A C++ out-parameter is an `Option` passed in and returned. "The
  output is untouched" means the returned value equals the one passed in.
- **Shared objects.** Shared caches are `Option` fields of the owning class.

## Model

| member | source | states |
|---|---|---|
| FailFast.FirstFailure | Example/MsvMainInitializer.cpp:170-178 | the index it returns is preceded only by codes that do not fail, and is either past the end or at a failing code |
| FailFast.IssueIsChain | Example/MsvMain.cpp:116-121 | the calls a fail-fast chain issues for any answers (the reference `Issue`) form a chain, one call longer than the first failure's index (or all steps), each carrying its answer |
| FailFast.ChainIsIssue | Example/MsvMain.cpp:116-121 | conversely every chain is exactly what the reference issues for the answers it received |
| FailFast.ChainResultMeaning | Example/MsvMain.cpp:116-130 | a chain's result is success exactly when every step ran and none failed, and otherwise is the failing code |
| FailFast.CutChainMeaning | Example/MsvMainInitializer.cpp:180-203 | the result of a chain with refusable steps is success exactly when every step ran and none failed |
| FailFast.UncutChain | Example/MsvMain.cpp:116-121 | a chain nothing can refuse is a plain fail-fast chain whose result is ChainResult |
| FailFast.FirstFailureOfFour | Example/MsvMainInitializer.cpp:172-175 | the first failure among four codes is the first of them, in order, that fails |
| LoggingLib.Logging.GetLogger | logging/MsvLogging.cpp:63-77 | without a provider DOES_NOT_EXIST_ERROR and the output is untouched; with one, success exactly when a logger is produced, ALLOCATION_ERROR otherwise |
| LoggingLib.Logging.GetFileLogger | logging/MsvLogging.cpp:79-93 | the same for the file-logger overload |
| LoggingLib.Logging.GetLoggerProvider | logging/MsvLogging.cpp:95-111 | an existing provider is returned unchanged and the arguments are ignored; otherwise a fresh provider with the given arguments is created and kept, or ALLOCATION_ERROR leaves the slot empty and the output untouched |
| LoggingLib.Logging.SetLoggerProvider | logging/MsvLogging.cpp:113-130 | ALREADY_EXISTS_ERROR whenever a provider is present (checked before the null check); INVALID_DATA_ERROR for a null provider on an empty slot; otherwise the provider is stored |
| LoggingLib.Logging.SetLogLevel | logging/MsvLogging.cpp:132-142 | DOES_NOT_EXIST_ERROR without a provider; otherwise the provider's level is set |
| LoggingLib.SetThenGet | logging/MsvLogging.cpp:99-130 | after a successful set, get returns that provider and a second set is refused with ALREADY_EXISTS_ERROR |
| SysLib.Sys.GetMsvConfiguration | msys_lib/MsvSys.cpp:64-80 | the first success creates and caches a fresh configuration service; later calls return the cached one; ALLOCATION_ERROR leaves the cache empty and the output untouched; the other caches are not touched |
| SysLib.Sys.GetMsvLogging | msys_lib/MsvSys.cpp:82-98 | the same for the logging service |
| SysLib.Sys.GetMsvThreading | msys_lib/MsvSys.cpp:100-116 | the same for the threading service |
| SysLib.RepeatedRequests | msys_lib/MsvSys.cpp:64-80 | two successful requests return the identical object and the other two caches stay as they were |
| ConfigurationLib.Configuration.GetActiveConfigSQLite | configuration/MsvConfiguration.cpp:65-79 | success yields a fresh active config holding the given logger; ALLOCATION_ERROR leaves the output untouched |
| ConfigurationLib.Configuration.GetPassiveConfigIniFile | configuration/MsvConfiguration.cpp:81-95 | success yields a fresh passive config; failure leaves the output untouched |
| ConfigurationLib.Configuration.GetSharedActiveConfigSQLite | configuration/MsvConfiguration.cpp:97-110 | an existing shared object is returned unchanged (the logger argument then has no effect); the first creation uses the logger; a failed creation leaves the slot unset |
| ConfigurationLib.Configuration.GetSharedPassiveConfigIniFile | configuration/MsvConfiguration.cpp:112-125 | the same caching for the passive config |
| ConfigurationLib.Configuration.GetSQLite | configuration/MsvConfiguration.cpp:127-139 | fresh on every success, and never cached |
| ConfigurationLib.SharedVersusFresh | configuration/MsvConfiguration.cpp:65-110 | two shared results are identical, two plain results are distinct |
| ThreadingLib.Threading.GetEvent | threading/MsvThreading.cpp:70-82 | fresh on every success; failure leaves the output untouched |
| ThreadingLib.Threading.GetSharedThreadPool | threading/MsvThreading.cpp:84-97 | cached after the first success; a failure leaves the slot unset |
| ThreadingLib.Threading.GetThreadPool | threading/MsvThreading.cpp:99-111 | fresh each call, and the shared slot is not touched |
| ThreadingLib.Threading.GetUniqueWorker | threading/MsvThreading.cpp:113-125 | fresh on success, output written only on success |
| ThreadingLib.Threading.GetWorker | threading/MsvThreading.cpp:127-139 | fresh on success, output written only on success |
| ModulesLib.Modules.GetDllModule | modules/MsvModules.cpp:65-84 | a null factory gives INVALID_DATA_ERROR with the output untouched; otherwise a fresh adapter for that id, factory and logger, or ALLOCATION_ERROR |
| ModulesLib.Modules.GetModuleConfigurator | modules/MsvModules.cpp:86-105 | a null active config gives INVALID_DATA_ERROR; otherwise a fresh configurator with the given config and keys |
| ModulesLib.Modules.GetModuleManager | modules/MsvModules.cpp:107-121 | a fresh, empty manager on every success |
| ModulesLib.Modules.GetSharedModuleManager | modules/MsvModules.cpp:123-136 | the identical manager on every success after the first; a failure leaves the slot unset |
| ModulesLib.SharedVersusFresh | modules/MsvModules.cpp:107-136 | two shared managers are identical, two plain ones distinct |
| SysDllLib.SysDll.GetDllObject | msys/main.cpp:71-86 | an unknown id gives NOT_FOUND_ERROR with nothing changed; while the object is held it is returned again; otherwise a fresh object is created and weakly referenced, or ALLOCATION_ERROR |
| SysDllLib.SysDll.Release | msys/main.cpp:48-52 | the last release empties the weak reference |
| SysDllLib.SharedWhileHeld | msys/main.cpp:71-86 | two successful requests while the first result is held return the same object |
| SysDllLib.NewAfterRelease | msys/main.cpp:71-86 | after every holder has released, the next request creates a different object |
| ExampleModuleDllLib.GetDllObject | Example/msvexamplemodule/main.cpp:63-79 | an unknown id gives NOT_FOUND_ERROR and the output is set only on success; each known id yields a fresh, uninitialized example module with its own module and logger name |
| ExampleModuleLib.ExampleModule.Initialize | Example/msvexamplemodule_lib/MsvExampleModule.cpp:68-96 | ALREADY_INITIALIZED_INFO with nothing changed when initialized; otherwise the base, threading and worker calls form a fail-fast chain, the chain's result is returned, initialized exactly on success, running untouched |
| ExampleModuleLib.ExampleModule.Uninitialize | Example/msvexamplemodule_lib/MsvExampleModule.cpp:98-124 | STILL_RUNNING_ERROR or NOT_INITIALIZED_INFO with nothing changed; a failed thread-stop wait is returned and the module stays initialized, otherwise it is uninitialized |
| ExampleModuleLib.ExampleModule.Start | Example/msvexamplemodule_lib/MsvExampleModule.cpp:126-152 | NOT_INITIALIZED_ERROR, ALREADY_RUNNING_INFO, or the thread start's failure with running left false; success sets running |
| ExampleModuleLib.ExampleModule.Stop | Example/msvexamplemodule_lib/MsvExampleModule.cpp:154-174 | NOT_RUNNING_INFO when not running; a failed thread stop leaves it running; success clears running |
| ExampleModuleLib.ExampleModule.Destroy | Example/msvexamplemodule_lib/MsvExampleModule.cpp:51-60 | the destructor stops before it uninitializes |
| ContainersLib.KeyMap.InsertKeyData | Example/MsvMainInitializer.cpp:76-78 | the insertion is requested; a code that does not fail binds the key to the value, a failing one leaves the map as it was |
| ContainersLib.DllList.AddDll | Example/MsvMainInitializer.cpp:213-215 | the addition is requested; a code that does not fail binds the id to the path |
| MainInitializerLib.InsertPassiveKey | Example/MsvMainInitializer.cpp:65-79 | a null default value, or a failed key allocation, gives ALLOCATION_ERROR without touching the map; otherwise the map's answer is returned and the key holds its group, name and default |
| MainInitializerLib.InsertActiveKey | Example/MsvMainInitializer.cpp:81-89 | a null default value gives ALLOCATION_ERROR without touching the map; otherwise the map's answer is returned |
| ContainersLib.NewDefault | Example/MsvMainInitializer.cpp:189-198 | `new (std::nothrow) MsvDefaultValue(v)` either fails, giving a null value, or yields a value equal to `v`; the passive keys' defaults (lines 231-238) are made the same way |
| MainInitializerLib.AddModule | Example/MsvMainInitializer.cpp:91-115 | a null module (either overload), or a failed configurator allocation, gives ALLOCATION_ERROR before the manager is called; otherwise the manager receives the module with a configurator for its key pair, and its answer is returned |
| MainInitializerLib.AddDllModule | Example/MsvMainInitializer.cpp:117-124 | a failing GetDllModule is returned before the manager is called (INVALID_DATA_ERROR without a factory); otherwise the adapter is added and a manager answer that does not fail becomes success |
| MainInitializerLib.ModulePlansUseActiveKeys | Example/MsvActiveCfgKeys.h:52-61 | the enabled and installed keys of the four modules are exactly the eight active keys |
| MainInitializerLib.ModulePlansAreDistinct | Example/MsvModuleIds.h:51-54 | no two modules share a key, and the modules carry the ids 0 to 3 in registration order |
| MainInitializerLib.DllListCoversModules | Example/MsvMainInitializer.cpp:205-220 | the DLL list maps the system object to msys.dll, and every DLL module's id, and only those, to msvexamplemodule.dll |
| MainInitializerLib.GetActiveConfigData | Example/MsvMainInitializer.cpp:162-168 | the first failing read's code (or success) is returned; the outputs of the reads before it are written, and the failing read's output and those after it keep their value |
| MainInitializerLib.GetMsvLoggerProviderData | Example/MsvMainInitializer.cpp:170-178 | the same for the four logger-provider reads, in order |
| MainInitializerLib.MainInitializer.InitializeAndGetActiveConfigKeyMap | Example/MsvMainInitializer.cpp:180-203 | the eight insertions form a fail-fast chain; on success a fresh map holding exactly keys 0 to 7, each defaulting to true, is handed out; otherwise the output is untouched |
| MainInitializerLib.MainInitializer.InitializeAndGetDllList | Example/MsvMainInitializer.cpp:205-220 | the three additions form a fail-fast chain; on success a fresh list of exactly the three entries is handed out; otherwise the output is untouched |
| MainInitializerLib.MainInitializer.InitializeAndGetPassiveConfigKeyMap | Example/MsvMainInitializer.cpp:222-243 | the six insertions form a fail-fast chain; on success a fresh map of exactly the six keys with their groups, names and defaults is handed out; otherwise the output is untouched |
| MainInitializerLib.MainInitializer.AddModulesToModuleManager | Example/MsvMainInitializer.cpp:149-160 | the two static and the two DLL modules are offered in that order with their ids and key pairs, stopping at the first failure; at most the two static modules are offered without a DLL factory |
| Bootstrap.StepsAssignEveryMember | Example/MsvMain.cpp:252-428 | the six steps together assign every member, each in exactly one step |
| Bootstrap.MsvMain.constructor | Example/MsvMain.cpp:46-54 | the factory is the one passed, or else the default factory |
| Bootstrap.MsvMain.Initialize | Example/MsvMain.cpp:97-133 | ALREADY_INITIALIZED_INFO when initialized; INVALID_DATA_ERROR without an initializer and ALLOCATION_ERROR without a factory, with no step run; otherwise the six steps form a fail-fast chain whose result is returned; ALREADY_INITIALIZED_INFO, INVALID_DATA_ERROR and ALLOCATION_ERROR leave every field as it was; on success the initializer and factory are dropped and every member is held; on failure the members of the failing step may have been assigned or released, those of the earlier steps are assigned and all others are as they were; the stop event is replaced by a new, unset one exactly when the threading step succeeded |
| Bootstrap.MsvMain.Uninitialize | Example/MsvMain.cpp:135-185 | STILL_RUNNING_ERROR or NOT_INITIALIZED_INFO with nothing changed; otherwise the manager and the active config are uninitialized in that order, their codes are ignored, every member but the logger provider and the logger is released, and SUCCESS is returned |
| Bootstrap.MsvMain.Start | Example/MsvMain.cpp:187-218 | NOT_INITIALIZED_ERROR or ALREADY_RUNNING_INFO with no call; a manager failure is returned with running left false; otherwise running |
| Bootstrap.MsvMain.Stop | Example/MsvMain.cpp:220-244 | NOT_RUNNING_INFO when not running; otherwise the manager is stopped, its code ignored, running cleared and SUCCESS returned |
| Bootstrap.MsvMain.OnSignal | Example/MsvMain.cpp:69-84 | the stop flag is set exactly when initialized; a repeated signal changes nothing more |
| Bootstrap.MsvMain.WaitForStopRequest | Example/MsvMain.cpp:86-89 | waits on the stop event and returns its answer |
| Bootstrap.MsvMain.Destroy | Example/MsvMain.cpp:57-61 | Stop then Uninitialize always leave the bootstrap stopped and uninitialized |
| Bootstrap.ReinitializeIsRefused | Example/MsvMain.cpp:106-127 | after a successful Initialize and Uninitialize, Initialize is refused with INVALID_DATA_ERROR |
| Driver.Process.SignalHandler | Example/main.cpp:60-73 | the signal is forwarded only to an existing, initialized main object: its stop flag ends set exactly when it was set or the object was initialized, and no other field of it changes |
| Driver.Serve | Example/main.cpp:108-114 | Start's failure is returned before the wait; otherwise the wait, Stop and Uninitialize follow in that order and cannot fail |
| Driver.Process.Run | Example/main.cpp:84-120 | ALLOCATION_ERROR with no call when the initializer or the main object cannot be made; an Initialize failure is returned with no handler installed; a Start failure is returned after the handler is installed; otherwise start, wait, stop and the two uninitializations run in order, the main object is released and SUCCESS returned |

## Left out

- Mutual exclusion (`std::recursive_mutex` and `lock_guard`) is left out. The model treats every operation as atomic and sequential.
- Concurrency with the signal handler is left out. The handler can run during the blocking wait; the model treats the wait as one opaque call.
- OS signal registration and its reset to the defaults in the handler are not modelled. Only the guard that forwards the signal is.
- Logging calls and the spdlog, SQLite and INI back ends are left out, because they are I/O.
- The internals of the module manager, DLL factory, DLL module adapter, module configurator, key maps and DLL list are not part of this model. They are opaque collaborators, so their registration order, reverse-order teardown and error aggregation are not modelled.
- `MsvSys::GetMsvModules` has no definition in the modelled files, so `InitializeModuleManager` is one opaque step.
- The six `MsvMain::Initialize*` steps are opaque calls (Example/MsvMain.cpp:252-428). A failed step may have assigned or released any of its own members, and touches no other.
- Bootstrap.MsvMain.WaitForStopRequest: the wait does not model blocking until the stop flag is set, because it is a blocking OS primitive.
- ContainersLib.KeyMap.InsertKeyData: the insert rule is assumed, because MsvConfigKeyMapBase is not part of this model.
- ContainersLib.DllList.AddDll: the insert rule is assumed, because MsvDllList is not part of this model.
- ContainersLib.NewDefault: the default value leaked when a passive key's allocation fails is not modelled; it is only memory.
- LoggingLib.Logging.GetLoggerProvider: the provider's file handling is left out.
- MainInitializerLib.GetMsvLoggerProviderData: the conversion of the configuration's 64-bit numbers to `uint32_t` is not modelled. Numbers are unbounded `nat`.
- SysDllLib.SysDll.GetDllObject: the release of a previously held output object is not modelled.
- SysDllLib.SysDll.GetDllObject: the output is assumed untouched on ALLOCATION_ERROR and NOT_FOUND_ERROR, because the body of `MSV_GETWEAKSHARED_DLLOBJECT_WITH_ID` is not part of this model.
- ExampleModuleDllLib.GetDllObject: the output is assumed untouched on ALLOCATION_ERROR and NOT_FOUND_ERROR, because the body of `MSV_GET_DLLOBJECT_WITH_ID` is not part of this model.
- MainInitializerLib.GetActiveConfigData: a failing read is assumed to leave its output untouched, because `IMsvPassiveConfig::GetValue` is not part of this model.
- MainInitializerLib.GetMsvLoggerProviderData: a failing read is assumed to leave its output untouched, because `IMsvPassiveConfig::GetValue` is not part of this model.
- Worker tasks, the condition-variable arguments of the worker factories, and the thread-start timeout of the example module are left out; they are threading plumbing.
- `MsvThreading`'s destructor, which stops the shared pool, is left out, and so is `shared_ptr` release beyond the state flags.
- The global main object is not reset when `main` returns early. Its later destruction at process exit (Stop, then Uninitialize) happens outside `main` and is not modelled there. `Bootstrap.MsvMain.Destroy` models the destructor itself.

## Design description and code

Where the repository's design description and its code disagree, the model follows the code:

- The design says the top-level entry always attempts Stop and Uninitialize, even after an earlier failure. `main` returns at once when Initialize or Start fails (Example/main.cpp:98,108).
- The design says Uninitialize releases all resources. `MsvMain::Uninitialize` never resets the logger provider or the logger (Example/MsvMain.cpp:153-184).
- The logging integration test expects NOT_INITIALIZED_ERROR from `GetLogger` without a provider (Test/MsvLogging_Integration.cpp:57). The code returns DOES_NOT_EXIST_ERROR (logging/MsvLogging.cpp:65-68).
