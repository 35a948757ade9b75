/** MsvLogging: holds one shared logger provider, created lazily or set once. */
module LoggingLib {
  import opened Wrappers
  import opened ErrorCodes
  import opened Handles

  class Logging {
    /** m_spSharedLoggerProvider */
    var provider: Option<LoggerProvider>

    constructor ()
      ensures provider == None
    {
      provider := None;
    }

    /** Returns a logger from the provider; without a provider nothing is written. */
    method GetLogger(out: Option<Logger>, loggerName: string) returns (r: ErrorCode, out': Option<Logger>)
      ensures provider.None? ==> r == DoesNotExistError && out' == out
      ensures provider.Some? ==> (r == Success <==> out'.Some?) && (r == AllocationError <==> out'.None?)
    {
      if provider.None? {
        return DoesNotExistError, out;
      }
      out' := provider.value.GetLogger(loggerName);
      r := if out'.None? then AllocationError else Success;
    }

    /** The overload that also names the log file and its rotation. */
    method GetFileLogger(out: Option<Logger>, loggerName: string, logFile: string, maxLogFileSize: int, maxLogFiles: int)
      returns (r: ErrorCode, out': Option<Logger>)
      ensures provider.None? ==> r == DoesNotExistError && out' == out
      ensures provider.Some? ==> (r == Success <==> out'.Some?) && (r == AllocationError <==> out'.None?)
    {
      if provider.None? {
        return DoesNotExistError, out;
      }
      out' := provider.value.GetFileLogger(loggerName, logFile, maxLogFileSize, maxLogFiles);
      r := if out'.None? then AllocationError else Success;
    }

    /** Creates the provider on the first call only; later calls return the same
        provider and ignore their arguments. */
    method GetLoggerProvider(out: Option<LoggerProvider>, logFolder: string, logFile: string, maxLogFileSize: int, maxLogFiles: int)
      returns (r: ErrorCode, out': Option<LoggerProvider>)
      modifies this
      ensures old(provider).Some? ==> r == Success && provider == old(provider) && out' == provider
      ensures old(provider).None? ==> r == Success || r == AllocationError
      ensures old(provider).None? && r == Success ==>
        provider.Some? && out' == provider && fresh(provider.value)
        && provider.value.logFolder == logFolder && provider.value.logFile == logFile
        && provider.value.maxLogFileSize == maxLogFileSize && provider.value.maxLogFiles == maxLogFiles
      ensures r == AllocationError ==> provider.None? && out' == out
    {
      if provider.None? {
        var ok := TryAllocate();
        if !ok {
          return AllocationError, out;
        }
        var p := new LoggerProvider(logFolder, logFile, maxLogFileSize, maxLogFiles);
        provider := Some(p);
      }
      r, out' := Success, provider;
    }

    /** Installs a provider made elsewhere; an existing provider is never replaced,
        and that check comes before the null check. */
    method SetLoggerProvider(p: Option<LoggerProvider>) returns (r: ErrorCode)
      modifies this
      ensures old(provider).Some? ==> r == AlreadyExistsError && provider == old(provider)
      ensures old(provider).None? && p.None? ==> r == InvalidDataError && provider == None
      ensures old(provider).None? && p.Some? ==> r == Success && provider == p
    {
      if provider.Some? {
        return AlreadyExistsError;
      }
      if p.None? {
        return InvalidDataError;
      }
      provider := p;
      r := Success;
    }

    method SetLogLevel(level: int) returns (r: ErrorCode)
      modifies if provider.Some? then {provider.value} else {}
      ensures provider == old(provider)
      ensures provider.None? ==> r == DoesNotExistError
      ensures provider.Some? ==> r == Success && provider.value.logLevel == Some(level)
    {
      if provider.None? {
        return DoesNotExistError;
      }
      provider.value.SetLogLevel(level);
      r := Success;
    }
  }

  /** After a successful SetLoggerProvider(p), GetLoggerProvider hands out p and a
      second SetLoggerProvider is refused. */
  method SetThenGet(logging: Logging, p: LoggerProvider, q: Option<LoggerProvider>)
    returns (set1: ErrorCode, got: ErrorCode, out: Option<LoggerProvider>, set2: ErrorCode)
    requires logging.provider == None
    modifies logging
    ensures set1 == Success && got == Success && out == Some(p) && set2 == AlreadyExistsError
    ensures logging.provider == Some(p)
  {
    set1 := logging.SetLoggerProvider(Some(p));
    got, out := logging.GetLoggerProvider(None, "", "msvlog.txt", 10485760, 3);
    set2 := logging.SetLoggerProvider(q);
  }
}
