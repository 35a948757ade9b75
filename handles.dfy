/** Objects created by the modelled code whose own behaviour lies outside the model
    (loggers, configuration back ends, threading primitives, the DLL factory). Each
    is an identity that can be compared, plus the arguments it was created with. */
module Handles {
  import opened Wrappers

  /** The outcome of a `new (std::nothrow)`: allocation may fail. */
  method TryAllocate() returns (ok: bool)
  {
    ok :| true;
  }

  class Logger {
    constructor () {}
  }

  /** A logger provider; it remembers the arguments it was created with and the most
      recent log level it was asked to apply. */
  class LoggerProvider {
    const logFolder: string
    const logFile: string
    const maxLogFileSize: int
    const maxLogFiles: int
    var logLevel: Option<int>

    constructor (logFolder: string, logFile: string, maxLogFileSize: int, maxLogFiles: int)
      ensures this.logFolder == logFolder && this.logFile == logFile
      ensures this.maxLogFileSize == maxLogFileSize && this.maxLogFiles == maxLogFiles
      ensures logLevel == None
    {
      this.logFolder, this.logFile := logFolder, logFile;
      this.maxLogFileSize, this.maxLogFiles := maxLogFileSize, maxLogFiles;
      logLevel := None;
    }

    /** The provider's own logger lookup: it may yield no logger. */
    method GetLogger(loggerName: string) returns (l: Option<Logger>)
    {
      l :| true;
    }

    method GetFileLogger(loggerName: string, logFile: string, maxLogFileSize: int, maxLogFiles: int) returns (l: Option<Logger>)
    {
      l :| true;
    }

    method SetLogLevel(level: int)
      modifies this
      ensures logLevel == Some(level)
    {
      logLevel := Some(level);
    }
  }

  class ActiveConfig {
    const logger: Option<Logger>
    constructor (logger: Option<Logger>) ensures this.logger == logger { this.logger := logger; }
  }

  class PassiveConfig {
    constructor () {}
  }

  class SQLite {
    const logger: Option<Logger>
    constructor (logger: Option<Logger>) ensures this.logger == logger { this.logger := logger; }
  }

  class Event {
    constructor () {}
  }

  class ThreadPool {
    constructor () {}
  }

  class UniqueWorker {
    constructor () {}
  }

  class Worker {
    constructor () {}
  }

  class DllFactory {
    constructor () {}
  }
}
