/** MsvSys: three lazily created, independently cached services. */
module SysLib {
  import opened Wrappers
  import opened ErrorCodes
  import opened Handles
  import opened ConfigurationLib
  import opened LoggingLib
  import opened ThreadingLib

  class Sys {
    /** m_spConfiguration, m_spLogging, m_spThreading */
    var configuration: Option<Configuration>
    var logging: Option<Logging>
    var threading: Option<Threading>

    constructor ()
      ensures configuration == None && logging == None && threading == None
    {
      configuration, logging, threading := None, None, None;
    }

    /** The same configuration service on every success. Allocation failure leaves
        the cache empty, so the next call tries again. Only this cache can change. */
    method GetMsvConfiguration(out: Option<Configuration>) returns (r: ErrorCode, out': Option<Configuration>)
      modifies this`configuration
      ensures old(configuration).Some? ==> r == Success && configuration == old(configuration)
      ensures r == Success || r == AllocationError
      ensures r == Success ==> configuration.Some? && out' == configuration
      ensures r == Success && old(configuration).None? ==> fresh(configuration.value) && configuration.value.sharedActiveConfig == None
      ensures r == AllocationError ==> configuration == None && out' == out
    {
      if configuration.None? {
        var ok := TryAllocate();
        if !ok {
          return AllocationError, out;
        }
        var c := new Configuration();
        configuration := Some(c);
      }
      r, out' := Success, configuration;
    }

    /** The same logging service on every success. */
    method GetMsvLogging(out: Option<Logging>) returns (r: ErrorCode, out': Option<Logging>)
      modifies this`logging
      ensures old(logging).Some? ==> r == Success && logging == old(logging)
      ensures r == Success || r == AllocationError
      ensures r == Success ==> logging.Some? && out' == logging
      ensures r == Success && old(logging).None? ==> fresh(logging.value) && logging.value.provider == None
      ensures r == AllocationError ==> logging == None && out' == out
    {
      if logging.None? {
        var ok := TryAllocate();
        if !ok {
          return AllocationError, out;
        }
        var l := new Logging();
        logging := Some(l);
      }
      r, out' := Success, logging;
    }

    /** The same threading service on every success. */
    method GetMsvThreading(out: Option<Threading>) returns (r: ErrorCode, out': Option<Threading>)
      modifies this`threading
      ensures old(threading).Some? ==> r == Success && threading == old(threading)
      ensures r == Success || r == AllocationError
      ensures r == Success ==> threading.Some? && out' == threading
      ensures r == Success && old(threading).None? ==> fresh(threading.value) && threading.value.sharedThreadPool == None
      ensures r == AllocationError ==> threading == None && out' == out
    {
      if threading.None? {
        var ok := TryAllocate();
        if !ok {
          return AllocationError, out;
        }
        var t := new Threading();
        threading := Some(t);
      }
      r, out' := Success, threading;
    }
  }

  /** Repeated successful requests return the identical service, and filling one
      cache leaves the others as they were. */
  method RepeatedRequests(sys: Sys) returns (a: Option<Configuration>, b: Option<Configuration>)
    modifies sys
    ensures a.Some? && b.Some? ==> a == b
    ensures sys.logging == old(sys.logging) && sys.threading == old(sys.threading)
  {
    var r1, r2;
    r1, a := sys.GetMsvConfiguration(None);
    r2, b := sys.GetMsvConfiguration(None);
  }
}
