/** A single log event and its enrichment and emission (entry.go). */
module Entries {
  import opened Wrappers
  import opened Levels
  import opened Values
  import opened Formatters
  import opened Config

  /** The reserved data keys. */
  const ValuesKey: string := "values"
  const ErrorKey: string := "error"

  // ---------------------------------------------------------------------
  // Enrichment, as a function on the data map

  /** A pointer is followed once; any other value is taken as it is. */
  function Deref(d: Val): Val {
    if d.Ref? then d.target else d
  }

  /** After dereferencing, a value that is neither a map nor a struct goes to
      the ordered "values" list. */
  predicate IsListed(v: Val) {
    !v.Dict? && !v.Struct?
  }

  /** The list already under "values", empty when that key is absent or nil. */
  function Listed(data: map<string, Val>): seq<Val> {
    var stored := Lookup(data, ValuesKey);
    if stored.List? then stored.items else []
  }

  /** What `With` demands of its argument and of the entry: a pointer is not
      nil, and a value bound for the list finds under "values" either nil or
      a `[]interface{}` (not a slice of another type). The source panics
      otherwise. */
  predicate Accepts(data: map<string, Val>, d: Val) {
    match d
    case Null => true
    case Err(_) => true
    case _ =>
      var v := Deref(d);
      && v != Null
      && (IsListed(v) ==> Lookup(data, ValuesKey).Null? || Lookup(data, ValuesKey).List?)
  }

  /** The keys `With(d)` may write: none for nil, "error" for an error, the
      map's keys for a map, the type name for a struct, "values" otherwise. */
  function Touched(d: Val): set<string> {
    if d.Null? then {}
    else if d.Err? then {ErrorKey}
    else
      var v := Deref(d);
      if v.Dict? then v.entries.Keys
      else if v.Struct? then {v.typeName}
      else {ValuesKey}
  }

  /** The data map after `With(d)`: every key is kept, and only the keys
      Touched names can change. */
  function WithData(data: map<string, Val>, d: Val): (r: map<string, Val>)
    requires Accepts(data, d)
    ensures data.Keys <= r.Keys && r.Keys <= data.Keys + Touched(d)
    ensures SameExcept(r, data, Touched(d))
  {
    if d.Null? then data
    else if d.Err? then data[ErrorKey := Str(d.msg)]
    else
      var v := Deref(d);
      if v.Dict? then data + v.entries
      else if v.Struct? then data[v.typeName := v]
      else data[ValuesKey := List(Listed(data) + [v])]
  }

  /** `With(nil)` changes nothing. */
  lemma WithNilUnchanged(data: map<string, Val>)
    ensures WithData(data, Null) == data
  {
  }

  /** An error is stored as its text under "error", replacing any earlier
      error; no other key changes. */
  lemma WithErrorStoresText(data: map<string, Val>, msg: string)
    ensures var r := WithData(data, Err(msg));
      ErrorKey in r && r[ErrorKey] == Str(msg) && SameExcept(r, data, {ErrorKey})
  {
  }

  /** A map is merged key by key: each of its keys takes the map's value,
      every other key keeps its own. */
  lemma WithMapMerges(data: map<string, Val>, m: map<string, Val>)
    ensures var r := WithData(data, Dict(m));
      && (forall k :: k in m ==> k in r && r[k] == m[k])
      && SameExcept(r, data, m.Keys)
  {
  }

  /** A struct is stored whole under its type name ("" when anonymous); no
      other key changes. */
  lemma WithStructStoresByTypeName(data: map<string, Val>, name: string, fields: map<string, Val>)
    ensures var r := WithData(data, Struct(name, fields));
      name in r && r[name] == Struct(name, fields) && SameExcept(r, data, {name})
  {
  }

  /** A pointer to a map, a struct or a plain value behaves as the value it
      points to: `With(&now)` stores `now` under "Time". */
  lemma WithPointerDereferences(data: map<string, Val>, t: Val)
    requires !t.Null? && !t.Err? && !t.Ref?
    requires Accepts(data, t)
    ensures Accepts(data, Ref(t)) && WithData(data, Ref(t)) == WithData(data, t)
  {
  }

  /** A plain value is appended at the end of the "values" list, which is
      created when absent; no other key changes. */
  lemma WithValueAppends(data: map<string, Val>, v: Val)
    requires PlainValue(v)
    requires Accepts(data, v)
    ensures var r := WithData(data, v);
      ValuesKey in r && r[ValuesKey] == List(Listed(data) + [v]) && SameExcept(r, data, {ValuesKey})
  {
  }

  /** A slice of any type other than `[]interface{}` under "values" makes
      the list append fail the type assertion, so such an input is not
      accepted. */
  lemma TypedValuesRejected(data: map<string, Val>, elemType: string, items: seq<Val>, v: Val)
    requires ValuesKey in data && data[ValuesKey] == Typed(elemType, items)
    requires PlainValue(v)
    ensures !Accepts(data, v) && !Accepts(data, Ref(v))
  {
  }

  /** A value that `With` appends to the list as it is (no pointer, no error,
      not nil, not a map or struct). */
  predicate PlainValue(v: Val) {
    IsListed(v) && !v.Null? && !v.Err? && !v.Ref?
  }

  /** `With(d1).With(d2)...`: the data map after a chain of calls. */
  function WithChain(data: map<string, Val>, ds: seq<Val>): Option<map<string, Val>>
    decreases |ds|
  {
    if ds == [] then Some(data)
    else if Accepts(data, ds[0]) then WithChain(WithData(data, ds[0]), ds[1..])
    else None
  }

  /** Chained plain values land in "values" in call order:
      `With(a).With(b).With(c)` yields [a, b, c] after whatever was listed. */
  lemma {:induction false} WithChainKeepsOrder(data: map<string, Val>, ds: seq<Val>)
    requires forall i :: 0 <= i < |ds| ==> PlainValue(ds[i])
    requires Lookup(data, ValuesKey).Null? || Lookup(data, ValuesKey).List?
    ensures WithChain(data, ds).Some?
    ensures var r := WithChain(data, ds).value;
      ds != [] ==> ValuesKey in r && r[ValuesKey] == List(Listed(data) + ds)
    ensures SameExcept(WithChain(data, ds).value, data, {ValuesKey})
    decreases |ds|
  {
    if ds != [] {
      var next := WithData(data, ds[0]);
      assert next[ValuesKey] == List(Listed(data) + [ds[0]]);
      assert Listed(next) == Listed(data) + [ds[0]];
      WithChainKeepsOrder(next, ds[1..]);
      if ds[1..] == [] {
        assert ds == [ds[0]];
      } else {
        assert Listed(data) + [ds[0]] + ds[1..] == Listed(data) + ds;
      }
    }
  }

  // ---------------------------------------------------------------------
  // Emission

  /** The lines one emission produces: the formatted entry when its level is
      at least the minimum level, nothing otherwise. */
  function Emitted(minLevel: Level, f: Formatter, c: Codecs, rec: Record): (lines: seq<string>)
    ensures |lines| <= 1
    ensures |lines| == 1 <==> rec.level >= minLevel
    ensures |lines| == 1 ==> lines[0] == Format(f, c, rec)
  {
    if rec.level >= minLevel then [Format(f, c, rec)] else []
  }

  const WriteFailedPrefix: string := "can not write on output: "

  /** The diagnostic the standard `log` package prints when a write fails:
      the fixed prefix, then the error text, which can be read back. */
  function WriteFailed(err: string): (r: string)
    ensures WriteFailedPrefix <= r
    ensures r[|WriteFailedPrefix|..] == err
  {
    WriteFailedPrefix + err
  }

  /** Raising the minimum level never lets more through: whatever is
      emitted at a minimum level is emitted at every lower one. */
  lemma EmittedMonotone(lo: Level, hi: Level, f: Formatter, c: Codecs, rec: Record)
    requires lo <= hi
    ensures |Emitted(hi, f, c, rec)| <= |Emitted(lo, f, c, rec)|
    ensures Emitted(hi, f, c, rec) != [] ==> Emitted(lo, f, c, rec) == Emitted(hi, f, c, rec)
  {
  }

  /** What one emission of `rec` does to the logger: the configuration is
      unchanged; the sink gains the lines Emitted gives for `rec`, or, when
      the sink rejects writes, the diagnostics gain one line per rejected
      write. */
  twostate predicate Wrote(log: Logger, rec: Record)
    reads log, log.output
  {
    && log.output == old(log.output)
    && log.minLevel == old(log.minLevel) && log.formatter == old(log.formatter)
    && log.constants == old(log.constants)
    && var lines := Emitted(log.minLevel, log.formatter, log.codecs, rec);
      match log.output.failure
      case None =>
        log.output.lines == old(log.output.lines) + lines && log.diagnostics == old(log.diagnostics)
      case Some(err) =>
        && log.output.lines == old(log.output.lines)
        && log.diagnostics == old(log.diagnostics) + (if lines == [] then [] else [WriteFailed(err)])
  }

  // ---------------------------------------------------------------------
  // The entry object

  class Entry {
    var raised: Instant
    var level: Level
    var source: string
    var message: string
    var data: map<string, Val>

    /** A bare entry: no data, no message, level Debug (Go's zero values). */
    constructor (raised: Instant, source: string)
      ensures this.raised == raised && this.source == source
      ensures level == Levels.Debug && message == "" && data == map[]
    {
      this.raised := raised;
      this.source := source;
      level := Levels.Debug;
      message := "";
      data := map[];
    }

    /** The value the formatter receives. */
    function Snapshot(): Record
      reads this
    {
      Record(raised, level, source, message, data)
    }

    /** Copies every pair of `m` into the data map, one key at a time. */
    method CopyIn(m: map<string, Val>)
      modifies this
      ensures data == old(data) + m
      ensures raised == old(raised) && level == old(level) && source == old(source) && message == old(message)
    {
      var pending := m.Keys;
      while pending != {}
        invariant pending <= m.Keys
        invariant data.Keys == old(data).Keys + (m.Keys - pending)
        invariant forall k :: k in data ==> data[k] == if k in m && k !in pending then m[k] else old(data)[k]
        invariant raised == old(raised) && level == old(level) && source == old(source) && message == old(message)
        decreases pending
      {
        var k :| k in pending;
        data := data[k := m[k]];
        pending := pending - {k};
      }
    }

    /** `With`: normalises one value into the data map (see WithData and the
        lemmas after it). */
    method With(d: Val)
      requires Accepts(data, d)
      modifies this
      ensures data == WithData(old(data), d)
      ensures raised == old(raised) && level == old(level) && source == old(source) && message == old(message)
    {
      if d.Null? {
        return;
      } else if d.Err? {
        data := data[ErrorKey := Str(d.msg)];
      } else {
        var v := if d.Ref? then d.target else d;
        if v.Dict? {
          CopyIn(v.entries);
        } else if v.Struct? {
          data := data[v.typeName := v];
        } else {
          var values: seq<Val> := [];
          if ValuesKey in data && data[ValuesKey] != Null {
            values := data[ValuesKey].items;
          }
          data := data[ValuesKey := List(values + [v])];
        }
      }
    }

    /** `Value`: sets one key, verbatim; nothing else changes. */
    method Value(key: string, value: Val)
      modifies this
      ensures data == old(data)[key := value]
      ensures SameExcept(data, old(data), {key})
      ensures raised == old(raised) && level == old(level) && source == old(source) && message == old(message)
    {
      data := data[key := value];
    }

    /** The effect of one emission at level `lvl`: the entry takes the level
        and the message and keeps its data, and the logger receives the
        entry as Wrote describes. */
    twostate predicate Logged(log: Logger, lvl: Level, message: string)
      reads this, log, log.output
    {
      && level == lvl && this.message == message
      && data == old(data) && raised == old(raised) && source == old(source)
      && Wrote(log, Snapshot())
    }

    /** The private `log` gate: records the message, then writes one formatted
        line when the level is at least the minimum level. */
    method Log(log: Logger, message: string)
      modifies this, log, log.output
      ensures Logged(log, old(level), message)
    {
      this.message := message;
      if level >= log.minLevel {
        var text := Format(log.formatter, log.codecs, Snapshot());
        match log.output.failure
        case None =>
          log.output.lines := log.output.lines + [text];
        case Some(err) =>
          log.diagnostics := log.diagnostics + [WriteFailed(err)];
      }
    }

    method Debug(log: Logger, message: string)
      modifies this, log, log.output
      ensures Logged(log, Levels.Debug, message)
    {
      level := Levels.Debug;
      Log(log, message);
    }

    method Info(log: Logger, message: string)
      modifies this, log, log.output
      ensures Logged(log, Levels.Info, message)
    {
      level := Levels.Info;
      Log(log, message);
    }

    method Warning(log: Logger, message: string)
      modifies this, log, log.output
      ensures Logged(log, Levels.Warning, message)
    {
      level := Levels.Warning;
      Log(log, message);
    }

    method Error(log: Logger, message: string)
      modifies this, log, log.output
      ensures Logged(log, Levels.Error, message)
    {
      level := Levels.Error;
      Log(log, message);
    }

    /** Emits like the others, then ends the process with status 1. */
    method Fatal(log: Logger, message: string)
      modifies this, log, log.output, log.process
      ensures Logged(log, Levels.Fatal, message)
      ensures log.process.exited && log.process.exitCode == 1
    {
      level := Levels.Fatal;
      Log(log, message);
      log.process.exited := true;
      log.process.exitCode := 1;
    }
  }

  /** `NewEntry`: a fresh entry whose data is a copy of the constants. */
  method NewEntry(log: Logger, raised: Instant, source: string) returns (e: Entry)
    ensures fresh(e)
    ensures e.data == log.constants && e.level == Debug && e.message == ""
    ensures e.raised == raised && e.source == source
  {
    e := new Entry(raised, source);
    e.CopyIn(log.constants);
  }
}
