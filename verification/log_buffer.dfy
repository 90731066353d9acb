/** A service's in-memory log: a bounded FIFO of the most recent lines. The clock is
    an input: each push is given the timestamp it records. */
module Logs {

  /** The most lines a buffer keeps. */
  const MAX_LOG_LINES: nat := 1000

  datatype LogEntry = LogEntry(timestamp: string, level: string, message: string)

  datatype LogBuffer = LogBuffer(entries: seq<LogEntry>)

  function New(): (b: LogBuffer)
    ensures b.entries == []
  {
    LogBuffer([])
  }

  /** The last `MAX_LOG_LINES` lines of `lines`, or all of them when there are fewer. */
  function Window(lines: seq<LogEntry>): (w: seq<LogEntry>)
    ensures |w| <= MAX_LOG_LINES
  {
    if |lines| <= MAX_LOG_LINES then lines else lines[|lines| - MAX_LOG_LINES..]
  }

  /** `push(level, message)`: append, first dropping the oldest line when the buffer is full. */
  function Push(b: LogBuffer, timestamp: string, level: string, message: string): (r: LogBuffer)
    ensures |b.entries| < MAX_LOG_LINES ==> |r.entries| == |b.entries| + 1
    ensures |b.entries| >= MAX_LOG_LINES ==> |r.entries| == |b.entries|
    ensures r.entries[|r.entries| - 1] == LogEntry(timestamp, level, message)
    ensures r.entries[..|r.entries| - 1] == b.entries[|b.entries| + 1 - |r.entries|..]
    ensures |b.entries| <= MAX_LOG_LINES ==> r.entries == Window(b.entries + [LogEntry(timestamp, level, message)])
  {
    var kept := if |b.entries| >= MAX_LOG_LINES then b.entries[1..] else b.entries;
    LogBuffer(kept + [LogEntry(timestamp, level, message)])
  }

  /** `get_all`: the lines, oldest first. */
  function GetAll(b: LogBuffer): seq<LogEntry> {
    b.entries
  }

  function Clear(b: LogBuffer): (r: LogBuffer)
    ensures r.entries == []
  {
    LogBuffer([])
  }

  /** Pushes `lines` one after another. */
  function PushAll(b: LogBuffer, lines: seq<LogEntry>): LogBuffer
    decreases |lines|
  {
    if |lines| == 0 then b
    else PushAll(Push(b, lines[0].timestamp, lines[0].level, lines[0].message), lines[1..])
  }

  /** Windowing twice is windowing once, whatever is appended in between. */
  lemma WindowOfWindow(u: seq<LogEntry>, v: seq<LogEntry>)
    ensures Window(Window(u) + v) == Window(u + v)
  {
    if |u| > MAX_LOG_LINES {
      var w := u[|u| - MAX_LOG_LINES..];
      assert Window(u) == w;
      assert (u + v)[|u + v| - |w + v|..] == w + v;
      if |w + v| > MAX_LOG_LINES {
        assert (w + v)[|w + v| - MAX_LOG_LINES..] == (u + v)[|u + v| - MAX_LOG_LINES..];
      }
    }
  }

  /** A buffer holding at most `MAX_LOG_LINES` lines holds, after any run of pushes, exactly
      the most recent `MAX_LOG_LINES` lines of its old content followed by the pushed ones,
      in the order they arrived. */
  lemma {:induction false} HoldsMostRecent(b: LogBuffer, lines: seq<LogEntry>)
    requires |b.entries| <= MAX_LOG_LINES
    ensures PushAll(b, lines).entries == Window(b.entries + lines)
    decreases |lines|
  {
    if |lines| == 0 {
      assert b.entries + lines == b.entries;
    } else {
      var e, rest := lines[0], lines[1..];
      var next := Push(b, e.timestamp, e.level, e.message);
      assert next.entries == Window(b.entries + [e]) by {
        assert LogEntry(e.timestamp, e.level, e.message) == e;
      }
      assert b.entries + [e] + rest == b.entries + lines by {
        assert [e] + rest == lines;
      }
      HoldsMostRecent(next, rest);
      WindowOfWindow(b.entries + [e], rest);
    }
  }
}
