/** MsvConfiguration: fresh configuration back ends, and one cached instance of each
    of the active (SQLite) and passive (INI file) configurations. */
module ConfigurationLib {
  import opened Wrappers
  import opened ErrorCodes
  import opened Handles

  class Configuration {
    /** spSharedActiveConfigSQLite */
    var sharedActiveConfig: Option<ActiveConfig>
    /** m_spSharedPassiveConfigIniFile */
    var sharedPassiveConfig: Option<PassiveConfig>

    constructor ()
      ensures sharedActiveConfig == None && sharedPassiveConfig == None
    {
      sharedActiveConfig, sharedPassiveConfig := None, None;
    }

    /** A new active configuration on every successful call. */
    method GetActiveConfigSQLite(out: Option<ActiveConfig>, logger: Option<Logger>) returns (r: ErrorCode, out': Option<ActiveConfig>)
      ensures r == Success || r == AllocationError
      ensures r == Success ==> out'.Some? && fresh(out'.value) && out'.value.logger == logger
      ensures r == AllocationError ==> out' == out
    {
      var ok := TryAllocate();
      if !ok {
        return AllocationError, out;
      }
      var c := new ActiveConfig(logger);
      r, out' := Success, Some(c);
    }

    /** A new passive configuration on every successful call. */
    method GetPassiveConfigIniFile(out: Option<PassiveConfig>) returns (r: ErrorCode, out': Option<PassiveConfig>)
      ensures r == Success || r == AllocationError
      ensures r == Success ==> out'.Some? && fresh(out'.value)
      ensures r == AllocationError ==> out' == out
    {
      var ok := TryAllocate();
      if !ok {
        return AllocationError, out;
      }
      var c := new PassiveConfig();
      r, out' := Success, Some(c);
    }

    /** The same active configuration on every success; the logger matters only when
        it is first created, and a failed creation leaves the slot empty. */
    method GetSharedActiveConfigSQLite(out: Option<ActiveConfig>, logger: Option<Logger>) returns (r: ErrorCode, out': Option<ActiveConfig>)
      modifies this`sharedActiveConfig
      ensures old(sharedActiveConfig).Some? ==> r == Success && sharedActiveConfig == old(sharedActiveConfig) && out' == sharedActiveConfig
      ensures old(sharedActiveConfig).None? ==> r == Success || r == AllocationError
      ensures old(sharedActiveConfig).None? && r == Success ==>
        sharedActiveConfig.Some? && fresh(sharedActiveConfig.value) && sharedActiveConfig.value.logger == logger && out' == sharedActiveConfig
      ensures r == AllocationError ==> sharedActiveConfig == None && out' == out
    {
      if sharedActiveConfig.None? {
        var code, created := GetActiveConfigSQLite(sharedActiveConfig, logger);
        sharedActiveConfig := created;
        if code != Success {
          return code, out;
        }
      }
      r, out' := Success, sharedActiveConfig;
    }

    /** The same passive configuration on every success. */
    method GetSharedPassiveConfigIniFile(out: Option<PassiveConfig>) returns (r: ErrorCode, out': Option<PassiveConfig>)
      modifies this`sharedPassiveConfig
      ensures old(sharedPassiveConfig).Some? ==> r == Success && sharedPassiveConfig == old(sharedPassiveConfig) && out' == sharedPassiveConfig
      ensures old(sharedPassiveConfig).None? ==> r == Success || r == AllocationError
      ensures old(sharedPassiveConfig).None? && r == Success ==>
        sharedPassiveConfig.Some? && fresh(sharedPassiveConfig.value) && out' == sharedPassiveConfig
      ensures r == AllocationError ==> sharedPassiveConfig == None && out' == out
    {
      if sharedPassiveConfig.None? {
        var code, created := GetPassiveConfigIniFile(sharedPassiveConfig);
        sharedPassiveConfig := created;
        if code != Success {
          return code, out;
        }
      }
      r, out' := Success, sharedPassiveConfig;
    }

    /** A new SQLite wrapper on every call; nothing is cached. */
    method GetSQLite(out: Option<SQLite>, logger: Option<Logger>) returns (r: ErrorCode, out': Option<SQLite>)
      ensures r == Success || r == AllocationError
      ensures r == Success ==> out'.Some? && fresh(out'.value) && out'.value.logger == logger
      ensures r == AllocationError ==> out' == out
    {
      var ok := TryAllocate();
      if !ok {
        return AllocationError, out;
      }
      var s := new SQLite(logger);
      r, out' := Success, Some(s);
    }
  }

  /** Two shared requests yield the identical object; two plain requests yield two
      distinct objects. */
  method SharedVersusFresh(cfg: Configuration) returns (a: Option<ActiveConfig>, b: Option<ActiveConfig>, c: Option<ActiveConfig>, d: Option<ActiveConfig>)
    modifies cfg
    ensures a.Some? && b.Some? ==> a == b
    ensures c.Some? && d.Some? ==> c != d
  {
    var r1, r2, r3, r4;
    r1, a := cfg.GetSharedActiveConfigSQLite(None, None);
    r2, b := cfg.GetSharedActiveConfigSQLite(None, None);
    r3, c := cfg.GetActiveConfigSQLite(None, None);
    r4, d := cfg.GetActiveConfigSQLite(None, None);
  }
}
