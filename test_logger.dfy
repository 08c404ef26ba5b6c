/** The in-memory capture buffer of test mode (src/lib/testLogger.ts). */
module TestLogger {
  import opened Types
  import opened Values

  /** One captured log line. */
  datatype LogEntry = LogEntry(level: Level, category: string, message: string, fields: Fields)

  /** The shared `logs` array: appended to by every logger of one factory, truncated by `clearLogs`. */
  class LogStore {
    var logs: seq<LogEntry>

    constructor()
      ensures logs == []
    {
      logs := [];
    }

    /** `logs.push(entry)`. */
    method Push(entry: LogEntry)
      modifies this
      ensures logs == old(logs) + [entry]
    {
      logs := logs + [entry];
    }

    /** `getLogs`: the buffer itself, every entry pushed since the last clear, oldest first. */
    function GetLogs(): (r: seq<LogEntry>)
      reads this
      ensures r == logs
    {
      logs
    }

    /** `clearLogs`: `logs.length = 0`. */
    method Clear()
      modifies this
      ensures logs == []
    {
      logs := [];
    }
  }
}
