/**
 * `add_log` of the web front end: append a timestamped entry to the session's log, then keep
 * only the newest hundred entries.
 */
module WebLog {

  /** How many entries the session log keeps. */
  const MaxLogs: nat := 100

  /** A log entry; the timestamp is the formatted clock reading, passed in. */
  datatype LogEntry = LogEntry(timestamp: string, level: string, message: string)

  /** `logs[-100:]` when there are more than a hundred entries, the list itself otherwise. */
  function Capped(logs: seq<LogEntry>): (r: seq<LogEntry>)
    ensures |r| <= MaxLogs || r == logs
    ensures |r| == if |logs| > MaxLogs then MaxLogs else |logs|
    ensures r == logs[|logs| - |r|..]
  {
    if |logs| > MaxLogs then logs[|logs| - MaxLogs..] else logs
  }

  /** Capping before appending is capping after: the log is always the newest entries of all. */
  lemma CappedAppend(logs: seq<LogEntry>, e: LogEntry)
    ensures Capped(Capped(logs) + [e]) == Capped(logs + [e])
  {
    if |logs| > MaxLogs {
      assert Capped(logs) + [e] == (logs + [e])[|logs| - MaxLogs..];
      assert (logs + [e])[|logs| - MaxLogs..][1..] == (logs + [e])[|logs| + 1 - MaxLogs..];
    }
  }

  /** The log after `add_log` was called with `entries`, one after the other, from an empty log. */
  function Replay(entries: seq<LogEntry>): seq<LogEntry> {
    if entries == [] then [] else Capped(Replay(entries[..|entries| - 1]) + [entries[|entries| - 1]])
  }

  /** After any run of `add_log` calls the log holds exactly the newest hundred entries, in order. */
  lemma {:induction false} LogKeepsNewest(entries: seq<LogEntry>)
    ensures Replay(entries) == Capped(entries)
  {
    if entries != [] {
      var init := entries[..|entries| - 1];
      LogKeepsNewest(init);
      CappedAppend(init, entries[|entries| - 1]);
      assert init + [entries[|entries| - 1]] == entries;
    }
  }

  /** The session state's `logs` list. */
  class SessionState {
    var logs: seq<LogEntry>

    constructor()
      ensures logs == []
    {
      logs := [];
    }
  }

  /** `add_log(level, message)` with the clock reading `timestamp`. */
  method AddLog(state: SessionState, level: string, message: string, timestamp: string)
    modifies state
    ensures state.logs == Capped(old(state.logs) + [LogEntry(timestamp, level, message)])
  {
    state.logs := state.logs + [LogEntry(timestamp, level, message)];
    if |state.logs| > MaxLogs {
      state.logs := state.logs[|state.logs| - MaxLogs..];
    }
  }
}
