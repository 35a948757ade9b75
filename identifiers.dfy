/** Identifier constants: the active and passive configuration keys, the module ids
    and the object ids exported by the two DLLs. */
module Identifiers {

  // active configuration keys (MsvActiveCfgKey), in declaration order
  const STATIC_MODULE1_INSTALLED: int := 0
  const STATIC_MODULE1_ENABLED: int := 1
  const STATIC_MODULE2_INSTALLED: int := 2
  const STATIC_MODULE2_ENABLED: int := 3
  const DYNAMIC_MODULE1_INSTALLED: int := 4
  const DYNAMIC_MODULE1_ENABLED: int := 5
  const DYNAMIC_MODULE2_INSTALLED: int := 6
  const DYNAMIC_MODULE2_ENABLED: int := 7

  // passive configuration keys (MsvPassiveCfgKey)
  const MAIN_LOG_FOLDER: int := 0
  const MAIN_LOG_FILE: int := 1
  const MAIN_LOG_FILEMAXSIZE: int := 2
  const MAIN_LOG_MAXFILES: int := 3
  const MAIN_ACTIVECFG_PATH: int := 4
  const MAIN_ACTIVECFG_GROUP: int := 5

  // module ids (MsvModuleId)
  const EXAMPLE_STATIC_MODULE_1: int := 0
  const EXAMPLE_STATIC_MODULE_2: int := 1
  const EXAMPLE_DYNAMIC_MODULE_1: int := 2
  const EXAMPLE_DYNAMIC_MODULE_2: int := 3

  // object ids of the SYS DLL; the "last" id is the same string
  const SYS_OBJECT_ID: string := "{06CF2063-E5EC-40E2-AA35-D116F7C0F0E5}"
  const SYS_OBJECT_ID_LAST: string := SYS_OBJECT_ID

  // object ids of the example-module DLL
  const EXAMPLEMODULE1_OBJECT_ID: string := "{91D68031-1687-42A6-AE48-141096DB8CF7}"
  const EXAMPLEMODULE2_OBJECT_ID: string := "{BE3FBC0A-C5EC-405D-84B6-F8C48188109E}"
}
