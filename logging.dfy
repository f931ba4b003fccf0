/**
 * The process-wide logger (`ProductionLogger`): a level filter, a FIFO
 * queue capped at 1000 entries that evicts the oldest first, a drain step
 * that appends one newline-terminated JSON record per drained entry to the
 * primary log file, size-triggered rotation of the log file through
 * generations `.1` to `.4`, and the telemetry gate.
 *
 * The two lock regions (enqueue with eviction, dequeue-all) are atomic
 * steps, so enqueue and drain are sequential methods on one queue. Files
 * are strings held by the logger: the primary log, a map from generation
 * index to rotated file, and the telemetry log.
 */
module Logging {
  import opened Options
  import opened Strings
  import Configuration

  const LogFileName := "darbot-debug.log"
  const MaxLogFileSize := 10 * 1024 * 1024
  const MaxLogFiles := 5
  const QueueCapacity := 1000
  const AppVersion := "0.3.11-alpha"

  datatype LogLevel = Trace | Debug | Information | Warning | Error | Critical

  /** The enum's numeric value, Trace = 0 up to Critical = 5. */
  function Ordinal(l: LogLevel): (n: nat)
    ensures n <= 5
  {
    match l
    case Trace => 0
    case Debug => 1
    case Information => 2
    case Warning => 3
    case Error => 4
    case Critical => 5
  }

  /** `level < _minimumLogLevel`. */
  predicate Below(a: LogLevel, b: LogLevel) {
    Ordinal(a) < Ordinal(b)
  }

  /** Levels are totally ordered by their ordinals, with no two levels sharing one. */
  lemma LevelsTotallyOrdered(a: LogLevel, b: LogLevel)
    ensures Ordinal(a) == Ordinal(b) ==> a == b
    ensures a == b || Below(a, b) || Below(b, a)
    ensures !(Below(a, b) && Below(b, a))
  {
  }

  /** `level.ToString()`. */
  function LevelName(l: LogLevel): string {
    match l
    case Trace => "Trace"
    case Debug => "Debug"
    case Information => "Information"
    case Warning => "Warning"
    case Error => "Error"
    case Critical => "Critical"
  }

  /** `Enum.TryParse<LogLevel>` on a level name (case-sensitive). */
  function ParseLevel(s: string): (r: Option<LogLevel>)
    ensures r.Some? ==> LevelName(r.value) == s
  {
    if s == "Trace" then Some(Trace)
    else if s == "Debug" then Some(Debug)
    else if s == "Information" then Some(Information)
    else if s == "Warning" then Some(Warning)
    else if s == "Error" then Some(Error)
    else if s == "Critical" then Some(Critical)
    else None
  }

  /** Every level's name parses back to that level. */
  lemma ParseLevelName(l: LogLevel)
    ensures ParseLevel(LevelName(l)) == Some(l)
  {
  }

  /** The values `LogMessage` reads from the environment: clock, thread and process. */
  datatype EntryContext = EntryContext(timestamp: string, threadId: int, processId: int)

  datatype LogEntry = LogEntry(timestamp: string, level: LogLevel, message: string,
                               exception: Option<string>, threadId: int, processId: int)

  function HexDigit(d: nat): char
    requires d < 16
  {
    "0123456789abcdef"[d]
  }

  /** Text with no control character, hence on one line. */
  predicate Printable(s: string) {
    forall i :: 0 <= i < |s| ==> s[i] >= ' '
  }

  /** The JSON escape of one character. */
  function EscapeChar(ch: char): (r: string)
    ensures Printable(r)
  {
    if ch == '"' then "\\\""
    else if ch == '\\' then "\\\\"
    else if ch == '\n' then "\\n"
    else if ch == '\r' then "\\r"
    else if ch == '\t' then "\\t"
    else if ch < ' ' then "\\u00" + [HexDigit(ch as int / 16), HexDigit(ch as int % 16)]
    else [ch]
  }

  /** The body of a JSON string literal; it holds no control character, so no line break. */
  function Escape(s: string): (r: string)
    ensures Printable(r)
    decreases |s|
  {
    if |s| == 0 then ""
    else
      var head := EscapeChar(s[0]);
      var tail := Escape(s[1..]);
      assert forall i :: 0 <= i < |head + tail| ==>
        (head + tail)[i] == if i < |head| then head[i] else tail[i - |head|];
      head + tail
  }

  /** A JSON string literal; it holds no line break. */
  function Quoted(s: string): (r: string)
    ensures '\n' !in r
  {
    var body := Escape(s);
    assert forall i :: 0 <= i < |body| ==> body[i] != '\n';
    "\"" + body + "\""
  }

  lemma IntToStringOneLine(n: int)
    ensures '\n' !in IntToString(n)
  {
    var d := NatToString(if n < 0 then -n else n);
    assert forall i :: 0 <= i < |d| ==> d[i] != '\n' by {
      forall i | 0 <= i < |d|
        ensures d[i] != '\n'
      {
        assert IsDigit(d[i]);
      }
    }
  }

  /** One log record as a single-line JSON object (the fields of WriteQueuedLogsAsync). */
  function Record(e: LogEntry): (r: string)
    ensures '\n' !in r
  {
    IntToStringOneLine(e.threadId);
    IntToStringOneLine(e.processId);
    Field("{", "timestamp", Quoted(e.timestamp))
    + Field(",", "level", Quoted(LevelName(e.level)))
    + Field(",", "message", Quoted(e.message))
    + Field(",", "exception", if e.exception.Some? then Quoted(e.exception.value) else "null")
    + Field(",", "threadId", IntToString(e.threadId))
    + Field(",", "processId", IntToString(e.processId))
    + "}"
  }

  /** One `"name":value` member of a JSON object, after its separator. */
  function Field(sep: string, name: string, value: string): (r: string)
    requires '\n' !in sep && '\n' !in name && '\n' !in value
    ensures '\n' !in r
  {
    sep + "\"" + name + "\":" + value
  }

  /** The records of a batch, one per entry, in order. */
  function Records(es: seq<LogEntry>): (r: seq<string>)
    ensures |r| == |es|
  {
    if |es| == 0 then [] else Records(es[..|es| - 1]) + [Record(es[|es| - 1])]
  }

  /** The i-th record of a batch is the record of its i-th entry. */
  lemma {:induction false} RecordAt(es: seq<LogEntry>, i: nat)
    requires i < |es|
    ensures Records(es)[i] == Record(es[i])
    decreases |es|
  {
    if i < |es| - 1 {
      var init := es[..|es| - 1];
      RecordAt(init, i);
      assert init[i] == es[i];
    }
  }

  /** No record of a batch contains a line break. */
  lemma {:induction false} RecordsOneLine(es: seq<LogEntry>)
    ensures forall i :: 0 <= i < |es| ==> '\n' !in Records(es)[i]
    decreases |es|
  {
    if |es| > 0 {
      RecordsOneLine(es[..|es| - 1]);
    }
  }

  /** The text appended for a batch: each record followed by "\n". */
  function BatchText(es: seq<LogEntry>): string {
    Join(Records(es), "\n") + "\n"
  }

  /** The formatting loop of `WriteQueuedLogsAsync`: one line per entry, in order. */
  method FormatBatch(entries: seq<LogEntry>) returns (content: string)
    requires |entries| > 0
    ensures content == BatchText(entries)
    ensures SplitOn(content, '\n') == Records(entries) + [""]
  {
    var lines: seq<string> := [];
    for i := 0 to |entries|
      invariant lines == Records(entries[..i])
    {
      assert entries[..i + 1][..i] == entries[..i];
      lines := lines + [Record(entries[i])];
    }
    assert entries[..|entries|] == entries;
    content := Join(lines, "\n") + "\n";
    BatchLines(entries);
  }

  /** A non-empty batch's text, records joined by and ended with "\n", splits back into its records. */
  lemma BatchLines(es: seq<LogEntry>)
    requires |es| >= 1
    ensures SplitOn(BatchText(es), '\n') == Records(es) + [""]
  {
    RecordsOneLine(es);
    TerminatedLinesSplit(Records(es), '\n');
  }

  /** The queue after enqueuing and evicting down to the capacity, oldest first. */
  function Capped(q: seq<LogEntry>): seq<LogEntry> {
    if |q| > QueueCapacity then q[|q| - QueueCapacity..] else q
  }

  /**
   * Enqueuing keeps at most 1000 entries, puts the new entry at the back,
   * grows a queue below capacity by exactly that entry, and on a full queue
   * drops exactly the oldest entry.
   */
  lemma EnqueueEffect(q: seq<LogEntry>, e: LogEntry)
    requires |q| <= QueueCapacity
    ensures |Capped(q + [e])| <= QueueCapacity
    ensures Capped(q + [e])[|Capped(q + [e])| - 1] == e
    ensures |q| < QueueCapacity ==> Capped(q + [e]) == q + [e]
    ensures |q| == QueueCapacity ==> Capped(q + [e]) == q[1..] + [e]
  {
  }

  /** The primary log's text, empty when the file does not exist (it is created on first write). */
  function TextOf(file: Option<string>): string {
    if file.Some? then file.value else ""
  }

  /**
   * The generations after one rotation: the primary becomes `.1`, `.k`
   * moves to `.k+1` for k = 1..3, the old `.4` is gone, and files outside
   * 1..4 are untouched.
   */
  function Rotated(gens: map<int, string>, primary: string): map<int, string> {
    Shifted(gens, 0)[1 := primary]
  }

  /**
   * The generations once the rotation loop has handled indices 4 down to
   * i + 1: files at those indices below 4 have moved up by one, the old `.4`
   * is deleted, and every other file is where it was.
   */
  function Shifted(gens: map<int, string>, i: int): map<int, string> {
    map k | k in gens.Keys + {2, 3, 4} &&
              ((k in gens && (k <= i || k > 4)) || (i + 2 <= k <= 4 && Older(k) in gens))
      :: if i + 2 <= k <= 4 then gens[Older(k)] else gens[k]
  }

  /** The generation whose file is renamed to generation k. */
  function Older(k: int): int {
    k - 1
  }

  /** Before step i of the rotation loop, `.i` is as it was and `.i+1` is free. */
  lemma ShiftedAt(gens: map<int, string>, i: int)
    requires 1 <= i <= 4
    ensures i in Shifted(gens, i) <==> i in gens
    ensures i in gens ==> Shifted(gens, i)[i] == gens[i]
    ensures i < 4 ==> i + 1 !in Shifted(gens, i)
  {
  }

  /** A missing `.i` leaves the step with nothing to do. */
  lemma ShiftSkip(gens: map<int, string>, i: int)
    requires 1 <= i <= 4 && i !in gens
    ensures Shifted(gens, i) == Shifted(gens, i - 1)
  {
  }

  /** The oldest generation `.4` is deleted. */
  lemma ShiftDrop(gens: map<int, string>)
    requires 4 in gens
    ensures Shifted(gens, 4) - {4} == Shifted(gens, 3)
  {
  }

  /** `.i` is renamed to `.i+1`. */
  lemma ShiftMove(gens: map<int, string>, i: int)
    requires 1 <= i < 4 && i in gens
    ensures (Shifted(gens, i) - {i})[i + 1 := gens[i]] == Shifted(gens, i - 1)
  {
  }

  /**
   * Generation indices stay within 1..4, the old `.4` is deleted, never
   * renamed, and `.k` exists after the rotation exactly when `.k-1` did before.
   */
  lemma RotatedBounded(gens: map<int, string>, primary: string)
    requires forall k :: k in gens ==> 1 <= k <= 4
    ensures forall k :: k in Rotated(gens, primary) ==> 1 <= k <= 4
    ensures Rotated(gens, primary)[1] == primary
    ensures forall k :: 2 <= k <= 4 ==> (k in Rotated(gens, primary) <==> k - 1 in gens)
    ensures forall k :: 1 <= k <= 3 && k in gens ==> Rotated(gens, primary)[k + 1] == gens[k]
  {
  }

  datatype TelemetryRecord = TelemetryRecord(eventName: string, properties: seq<(string, string)>,
                                             timestamp: string, sessionId: string, version: string)

  /** The properties as a JSON object with string members. */
  function PropertiesJson(ps: seq<(string, string)>): (r: string)
    ensures '\n' !in r
  {
    var members := seq(|ps|, i requires 0 <= i < |ps| => Quoted(ps[i].0) + ":" + Quoted(ps[i].1));
    assert forall i :: 0 <= i < |members| ==> '\n' !in members[i];
    JoinWithout(members, ",", '\n');
    "{" + Join(members, ",") + "}"
  }

  /** A telemetry record as a single-line JSON object (the anonymous object of LogTelemetryAsync). */
  function TelemetryLine(t: TelemetryRecord): (r: string)
    ensures '\n' !in r
  {
    Field("{", "EventName", Quoted(t.eventName))
    + Field(",", "Properties", PropertiesJson(t.properties))
    + Field(",", "Timestamp", Quoted(t.timestamp))
    + Field(",", "SessionId", Quoted(t.sessionId))
    + Field(",", "Version", Quoted(t.version))
    + "}"
  }

  class ProductionLogger {
    var minimumLevel: LogLevel
    var initialized: bool
    var queue: seq<LogEntry>
    /** darbot-debug.log, None when it does not exist. */
    var primary: Option<string>
    /** darbot-debug.log.k for each generation k present. */
    var generations: map<int, string>
    /** darbot-telemetry.log. */
    var telemetry: string

    ghost predicate Valid()
      reads this
    {
      |queue| <= QueueCapacity
    }

    /** A fresh process: minimum level Information, not initialised, nothing queued; files as found. */
    constructor (primaryFile: Option<string>, rotated: map<int, string>, telemetryFile: string)
      ensures Valid()
      ensures minimumLevel == Information && !initialized && queue == []
      ensures primary == primaryFile && generations == rotated && telemetry == telemetryFile
    {
      minimumLevel := Information;
      initialized := false;
      queue := [];
      primary := primaryFile;
      generations := rotated;
      telemetry := telemetryFile;
    }

    /**
     * `LogMessage`: a message below the minimum level is dropped; otherwise
     * its entry goes to the back of the queue and the oldest entries are
     * evicted until at most 1000 remain.
     */
    method LogMessage(level: LogLevel, message: string, exception: Option<string>, ctx: EntryContext)
      requires Valid()
      modifies this`queue
      ensures Valid()
      ensures Below(level, minimumLevel) ==> queue == old(queue)
      ensures !Below(level, minimumLevel) ==>
        queue == Capped(old(queue) + [LogEntry(ctx.timestamp, level, message, exception, ctx.threadId, ctx.processId)])
    {
      if Below(level, minimumLevel) {
        return;
      }
      var entry := LogEntry(ctx.timestamp, level, message, exception, ctx.threadId, ctx.processId);
      ghost var grown := queue + [entry];
      queue := queue + [entry];
      while |queue| > QueueCapacity
        invariant |queue| <= |grown| && queue == grown[|grown| - |queue|..]
        invariant |grown| > QueueCapacity ==> |queue| >= QueueCapacity
        invariant |grown| <= QueueCapacity ==> queue == grown
        decreases |queue|
      {
        queue := queue[1..];
      }
    }

    /** The locked part of `WriteQueuedLogsAsync`: dequeue every entry, oldest first. */
    method DrainQueue() returns (entries: seq<LogEntry>)
      modifies this`queue
      ensures entries == old(queue) && queue == []
    {
      entries := [];
      while |queue| > 0
        invariant entries + queue == old(queue)
        decreases |queue|
      {
        entries := entries + [queue[0]];
        queue := queue[1..];
      }
    }

    /**
     * `WriteQueuedLogsAsync`: removes every queued entry, in FIFO order, and
     * when there was at least one appends their records to the primary log,
     * each followed by "\n". A failed write loses the drained entries.
     * The appended text splits at '\n' into exactly the drained records,
     * in dequeue order, and an empty last piece.
     */
    method WriteQueuedLogs(writeSucceeds: bool) returns (appended: Option<string>)
      requires Valid()
      modifies this`queue, this`primary
      ensures Valid() && queue == []
      ensures old(queue) == [] || !writeSucceeds ==> appended == None && primary == old(primary)
      ensures old(queue) != [] && writeSucceeds ==>
        && appended == Some(BatchText(old(queue)))
        && primary == Some(TextOf(old(primary)) + appended.value)
    {
      var entries := DrainQueue();
      if |entries| == 0 || !writeSucceeds {
        return None;
      }
      var content := FormatBatch(entries);
      primary := Some(TextOf(primary) + content);
      return Some(content);
    }

    /**
     * `RotateLogsIfNeededAsync`: when the primary log is larger than 10 MB,
     * generation `.4` is deleted, `.k` is renamed to `.k+1` for k = 3 down
     * to 1, and the primary becomes `.1`. No rename ever meets an existing
     * file. Otherwise nothing changes.
     */
    method RotateLogsIfNeeded()
      modifies this`primary, this`generations
      ensures old(primary).Some? && |old(primary).value| > MaxLogFileSize ==>
        primary == None && generations == Rotated(old(generations), old(primary).value)
      ensures !(old(primary).Some? && |old(primary).value| > MaxLogFileSize) ==>
        primary == old(primary) && generations == old(generations)
    {
      if primary.None? || |primary.value| <= MaxLogFileSize {
        return;
      }
      var content := primary.value;
      var i := MaxLogFiles - 1;
      assert Shifted(old(generations), i) == old(generations);
      while i > 0
        invariant 0 <= i <= MaxLogFiles - 1
        invariant generations == Shifted(old(generations), i)
        decreases i
      {
        ShiftedAt(old(generations), i);
        if i in generations {
          if i == MaxLogFiles - 1 {
            generations := generations - {i};
          } else {
            // the rename target has already been moved on or deleted
            assert i + 1 !in generations;
            generations := (generations - {i})[i + 1 := generations[i]];
          }
        }
        i := i - 1;
      }
      generations := generations[1 := content];
      primary := None;
    }

    /**
     * `InitializeAsync`: nothing once initialised. Otherwise the minimum
     * level becomes the configured `logging_level` when that parses as a
     * level name, the logs are rotated if needed, the logger is marked
     * initialised and logs that it is.
     */
    method Initialize(settings: Configuration.Settings, ctx: EntryContext)
      requires Valid()
      modifies this
      ensures Valid()
      ensures old(initialized) ==> unchanged(this)
      ensures !old(initialized) ==>
        var parsed := ParseLevel(Configuration.GetString(settings, "logging_level", "Information"));
        var rotates := old(primary).Some? && |old(primary).value| > MaxLogFileSize;
        && initialized
        && minimumLevel == (if parsed.Some? then parsed.value else old(minimumLevel))
        && primary == (if rotates then None else old(primary))
        && generations == (if rotates then Rotated(old(generations), old(primary).value) else old(generations))
        && telemetry == old(telemetry)
        && queue == (if Below(Information, minimumLevel) then old(queue)
                     else Capped(old(queue) + [LogEntry(ctx.timestamp, Information,
                            "ProductionLogger initialized successfully", None, ctx.threadId, ctx.processId)]))
    {
      if initialized {
        return;
      }
      var levelSetting := Configuration.GetString(settings, "logging_level", "Information");
      var parsed := ParseLevel(levelSetting);
      if parsed.Some? {
        minimumLevel := parsed.value;
      }
      RotateLogsIfNeeded();
      initialized := true;
      LogMessage(Information, "ProductionLogger initialized successfully", None, ctx);
    }

    /**
     * `LogTelemetryAsync`: with `telemetry_enabled` false the event is dropped
     * and nothing changes; otherwise "TELEMETRY: <event>" is logged at
     * Information and, when the write succeeds, one JSON line is appended to
     * the telemetry log.
     */
    method LogTelemetry(eventName: string, properties: seq<(string, string)>, settings: Configuration.Settings,
                        ctx: EntryContext, sessionId: string, writeSucceeds: bool)
      requires Valid()
      modifies this`queue, this`telemetry
      ensures Valid()
      ensures !Configuration.GetBool(settings, "telemetry_enabled", true) ==>
        queue == old(queue) && telemetry == old(telemetry)
      ensures Configuration.GetBool(settings, "telemetry_enabled", true) ==>
        && queue == (if Below(Information, minimumLevel) then old(queue)
                     else Capped(old(queue) + [LogEntry(ctx.timestamp, Information, "TELEMETRY: " + eventName,
                                                         None, ctx.threadId, ctx.processId)]))
        && telemetry == (if writeSucceeds
                         then old(telemetry) + TelemetryLine(TelemetryRecord(eventName, properties, ctx.timestamp, sessionId, AppVersion)) + "\n"
                         else old(telemetry))
    {
      if !Configuration.GetBool(settings, "telemetry_enabled", true) {
        return;
      }
      LogMessage(Information, "TELEMETRY: " + eventName, None, ctx);
      WriteTelemetryData(TelemetryRecord(eventName, properties, ctx.timestamp, sessionId, AppVersion), writeSucceeds);
    }

    /** `WriteTelemetryDataAsync`: one serialised record and a line break appended, or nothing when the write fails. */
    method WriteTelemetryData(record: TelemetryRecord, writeSucceeds: bool)
      modifies this`telemetry
      ensures telemetry == if writeSucceeds then old(telemetry) + TelemetryLine(record) + "\n" else old(telemetry)
    {
      if writeSucceeds {
        telemetry := telemetry + TelemetryLine(record) + "\n";
      }
    }
  }
}
