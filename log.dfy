/** The package-level convenience functions of log.go: each builds a fresh
    entry with NewEntry and delegates to it. The caller's location and the
    current time, which the source looks up itself, are parameters. */
module Log {
  import opened Wrappers
  import opened Levels
  import opened Values
  import opened Formatters
  import opened Config
  import opened Entries

  /** The entry the convenience functions build and emit: the constants as
      data, the given level and message. */
  function Built(log: Logger, lvl: Level, message: string, raised: Instant, source: string): Record
    reads log
  {
    Record(raised, lvl, source, message, log.constants)
  }

  method Debug(log: Logger, message: string, raised: Instant, source: string)
    modifies log, log.output
    ensures Wrote(log, Built(log, Levels.Debug, message, raised, source))
  {
    var e := NewEntry(log, raised, source);
    e.Debug(log, message);
  }

  method Info(log: Logger, message: string, raised: Instant, source: string)
    modifies log, log.output
    ensures Wrote(log, Built(log, Levels.Info, message, raised, source))
  {
    var e := NewEntry(log, raised, source);
    e.Info(log, message);
  }

  method Warning(log: Logger, message: string, raised: Instant, source: string)
    modifies log, log.output
    ensures Wrote(log, Built(log, Levels.Warning, message, raised, source))
  {
    var e := NewEntry(log, raised, source);
    e.Warning(log, message);
  }

  method Error(log: Logger, message: string, raised: Instant, source: string)
    modifies log, log.output
    ensures Wrote(log, Built(log, Levels.Error, message, raised, source))
  {
    var e := NewEntry(log, raised, source);
    e.Error(log, message);
  }

  /** Emits like the others, then the process exits with status 1. */
  method Fatal(log: Logger, message: string, raised: Instant, source: string)
    modifies log, log.output, log.process
    ensures Wrote(log, Built(log, Levels.Fatal, message, raised, source))
    ensures log.process.exited && log.process.exitCode == 1
  {
    var e := NewEntry(log, raised, source);
    e.Fatal(log, message);
  }

  /** `With`: a fresh, not yet emitted entry holding the constants
      enriched with `d`. */
  method With(log: Logger, d: Val, raised: Instant, source: string) returns (e: Entry)
    requires Accepts(log.constants, d)
    ensures fresh(e)
    ensures e.data == WithData(log.constants, d)
    ensures e.level == Levels.Debug && e.message == "" && e.raised == raised && e.source == source
  {
    e := NewEntry(log, raised, source);
    e.With(d);
  }

  /** `Value`: a fresh, not yet emitted entry holding the constants and
      one more key. */
  method Value(log: Logger, key: string, value: Val, raised: Instant, source: string) returns (e: Entry)
    ensures fresh(e)
    ensures e.data == log.constants[key := value]
    ensures e.level == Levels.Debug && e.message == "" && e.raised == raised && e.source == source
  {
    e := NewEntry(log, raised, source);
    e.Value(key, value);
  }

  // ---------------------------------------------------------------------
  // Whole runs of the package, from the default configuration

  /** With the minimum level at Warning, Debug("x") then Error("y") leaves
      exactly one line, the text rendering of the Error entry. */
  method ThresholdRun(c: Codecs, t1: Instant, t2: Instant, source: string) returns (lines: seq<string>)
    ensures lines == [Format(Text, c, Record(t2, Levels.Error, source, "y", map[]))]
  {
    var log := new Logger(c);
    log.SetLevel(Levels.Warning);
    Debug(log, "x", t1, source);
    Error(log, "y", t2, source);
    lines := log.output.lines;
  }

  /** Under the default configuration a Debug entry is dropped and an Info
      entry is written. */
  method DefaultLevelRun(c: Codecs, t: Instant, source: string, message: string) returns (lines: seq<string>)
    ensures lines == [Format(Text, c, Record(t, Levels.Info, source, message, map[]))]
  {
    var log := new Logger(c);
    Debug(log, message, t, source);
    Info(log, message, t, source);
    lines := log.output.lines;
  }

  /** A constant set after an entry was built does not reach that entry,
      and reaches every entry built afterwards. */
  method ConstantRun(c: Codecs, key: string, value: Val, t: Instant, source: string)
    returns (before: map<string, Val>, after: map<string, Val>)
    ensures before == map[]
    ensures after == map[key := value]
  {
    var log := new Logger(c);
    var earlier := NewEntry(log, t, source);
    log.SetConstant(key, value);
    var later := NewEntry(log, t, source);
    before, after := earlier.data, later.data;
  }

  /** With the JSON formatter and a constant set, each emission writes the
      marshal of an entry carrying that constant; Fatal also ends the
      process with status 1. */
  method JsonConstantRun(c: Codecs, key: string, value: Val, t: Instant, source: string)
    returns (lines: seq<string>, exited: bool, code: int)
    ensures lines == [
      c.json(Record(t, Levels.Info, source, "", map[key := value])),
      c.json(Record(t, Levels.Fatal, source, "", map[key := value]))]
    ensures exited && code == 1
  {
    var log := new Logger(c);
    log.SetFormatter(Json);
    log.SetConstant(key, value);
    Debug(log, "", t, source);
    Info(log, "", t, source);
    Fatal(log, "", t, source);
    lines, exited, code := log.output.lines, log.process.exited, log.process.exitCode;
  }

  /** A sink that rejects writes receives nothing; each write that passed
      the level gate is reported once on the diagnostic channel. */
  method FailingSinkRun(c: Codecs, err: string, t: Instant, source: string)
    returns (lines: seq<string>, diagnostics: seq<string>)
    ensures lines == []
    ensures diagnostics == [WriteFailed(err)]
  {
    var log := new Logger(c);
    var w := new Writer(Some(err));
    log.SetOutput(w);
    Debug(log, "dropped", t, source);
    Warning(log, "rejected", t, source);
    lines, diagnostics := w.lines, log.diagnostics;
  }

  /** `With("value1").With("value2").With("value3")` on a fresh entry lists
      the three values in call order. */
  method WithChainRun(c: Codecs, t: Instant, source: string) returns (values: Val)
    ensures values == List([Str("value1"), Str("value2"), Str("value3")])
  {
    var log := new Logger(c);
    var e := With(log, Str("value1"), t, source);
    e.With(Str("value2"));
    e.With(Str("value3"));
    values := e.data[ValuesKey];
  }
}
