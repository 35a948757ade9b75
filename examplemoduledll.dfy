/** The example-module DLL entry point: GetDllObject makes a new example module for
    each of its two object ids and refuses every other id. */
module ExampleModuleDllLib {
  import opened Wrappers
  import opened ErrorCodes
  import opened Collaborators
  import opened Identifiers
  import opened Handles
  import opened ExampleModuleLib

  method GetDllObject(id: string, out: Option<ExampleModule>, env: Environment, test: FailureTest)
    returns (r: ErrorCode, out': Option<ExampleModule>)
    ensures id != EXAMPLEMODULE1_OBJECT_ID && id != EXAMPLEMODULE2_OBJECT_ID ==> r == NotFoundError
    ensures id == EXAMPLEMODULE1_OBJECT_ID || id == EXAMPLEMODULE2_OBJECT_ID ==> r == Success || r == AllocationError
    ensures r != Success ==> out' == out
    ensures r == Success ==>
      out'.Some? && fresh(out'.value) && out'.value.dllFactory == None
      && !out'.value.initialized && !out'.value.running && out'.value.Valid()
    ensures r == Success && id == EXAMPLEMODULE1_OBJECT_ID ==>
      out'.value.moduleName == "MsvDllExampleModule_1" && out'.value.loggerName == "DllModule_1"
    ensures r == Success && id == EXAMPLEMODULE2_OBJECT_ID ==>
      out'.value.moduleName == "MsvDllExampleModule_2" && out'.value.loggerName == "DllModule_2"
  {
    if id == EXAMPLEMODULE1_OBJECT_ID {
      var ok := TryAllocate();
      if !ok {
        return AllocationError, out;
      }
      var m := new ExampleModule("MsvDllExampleModule_1", "DllModule_1", None, env, test);
      return Success, Some(m);
    }
    if id == EXAMPLEMODULE2_OBJECT_ID {
      var ok := TryAllocate();
      if !ok {
        return AllocationError, out;
      }
      var m := new ExampleModule("MsvDllExampleModule_2", "DllModule_2", None, env, test);
      return Success, Some(m);
    }
    r, out' := NotFoundError, out;
  }
}
