# golage/log in Dafny

A model of a small structured-logging package for Go. Calling code emits
entries at five severities. Each entry has a time, a level, a caller
location, a message and a key/value data map. Entries are enriched through
`With` and `Value`. The process-wide constants are copied into every new
entry. An entry is written only when its level reaches the minimum level.
It is then rendered by the active formatter (text, JSON or YAML) and
written as one line to the active output.

Modules and files:

- `levels.dfy` (`Levels`): level.go. The five level constants and `Level.String`.
- `values.dfy` (`Wrappers`, `Values`): the `interface{}` values the package
  handles. `Val` has one variant per kind that the enrichment code tells
  apart: nil, a string-keyed map, a struct with its type name, a pointer, an
  error, and plain values. A `[]interface{}` list and a slice of any other
  element type are separate variants, because only the first passes the type
  assertion on "values".
- `strings.dfy` (`Strings`): the parts of Go's `strings` package that the
  text formatter uses: `TrimSpace` with `unicode.IsSpace`, `ToUpper` for
  ASCII, and `ReplaceAll(s, "\n", "\n\t")`.
- `formatter.go` → `formatter.dfy` (`Formatters`): the text layout with its
  ANSI-coloured level column and its indented data dump. The JSON and YAML
  formatters return the marshal of the whole entry.
- log.go → `config.dfy` (`Config`): the package variables. They live in one
  `Logger` object with its setters. The output is a `Writer` object holding
  the lines written so far. The process is a `Process` object that records
  an exit.
- entry.go → `entry.dfy` (`Entries`): the `Entry` class, `NewEntry`, `With`,
  `Value`, the emit methods and the private `log` gate. `WithData` is the
  specification function of `With`, and `Emitted` is that of the gate.
- log.go → `log.dfy` (`Log`): the package-level `Debug` … `Fatal`, `With` and
  `Value`, plus whole runs of the package from its default configuration.

The package's globals are modelled as one `Logger` object. Every operation
that reads them takes that object as a parameter. Two things are parameters
too: the current time and the caller location string, which the source gets
from `time.Now` and `runtime.Caller`. The time layout and the JSON and YAML
marshallers are kept abstract. They are the function-valued fields of a
`Codecs` value that the logger holds.

## Model

| member | source | states |
|---|---|---|
| `Levels.DeclaredStrictlyOrdered` | level.go:6-21 | The levels are Debug=0 < Info=1 < Warning=2 < Error=3 < Fatal=4. |
| `Levels.Name` | level.go:24-38 | A declared level maps to its name in the table Debug, Info, Warning, Error, Fatal. The result is "Unknown" exactly when the level is not one of the five. |
| `Levels.NameInjective` | level.go:24-38 | Two declared levels with the same name are the same level. |
| `Strings.TrimSpace` | formatter.go:41 | The result is a contiguous part of the input. Only white space lies outside it, and neither of its ends is white space. |
| `Strings.TrimSpaceOfTrimmed` | formatter.go:41 | A string with no white space at either end is left unchanged. |
| `Strings.IsSpace` | formatter.go:41 | A character is white space exactly when it is one of the 25 code points with Unicode's White_Space property, as `unicode.IsSpace` (used by `TrimSpace`) decides. |
| `Strings.Upper` | formatter.go:27 | `ToUpper` keeps the length and changes exactly the letters 'a' to 'z', each to its capital, so no such letter is left. |
| `Strings.UpperIdempotent` | formatter.go:27 | Upper-casing twice is the same as upper-casing once. |
| `Strings.IndentLines` | formatter.go:44 | `ReplaceAll(s, "\n", "\n\t")` puts a tab after every line break and loses nothing: removing those tabs gives back `s`. |
| `Strings.TrimKeepsTabs` | formatter.go:44 | Trimming keeps that property, because a trimmed text never ends in a line break. |
| `Formatters.Label` | formatter.go:27-39 | A declared level shows as its name upper-cased, wrapped in its colour code and closed by ESC[0m: Debug 0;37, Info 0;36, Warning 0;33, Error 0;31, Fatal 1;31. Any other level shows as "Unknown" upper-cased, with no colour codes. |
| `Formatters.CapitalNames` | formatter.go:27 | The upper-cased names are DEBUG, INFO, WARNING, ERROR, FATAL and UNKNOWN. |
| `Formatters.LabelInjective` | formatter.go:27-39 | Declared levels are told apart in the text output, and an undeclared level never looks like a declared one. |
| `Formatters.TextFormat` | formatter.go:24-47 | The output is exactly the header (time, " \| ", label, " \| ", trimmed message, " \n\t", source) when the data map is empty. Otherwise it is the header, "\n\t" and the trimmed, indented YAML dump of the data. |
| `Formatters.TextDataLinesIndented` | formatter.go:42-45 | After the header, every line break in the text output is followed by a tab. |
| `Formatters.Format` | formatter.go:24-73 | Text output is `TextFormat` of the entry (so it has the header and data-block guarantees). JSON and YAML output is exactly the marshal of the whole entry. Each result depends on the entry alone. |
| `Config.Logger.constructor` | log.go:8-14 | The defaults are standard output, minimum level Info, the text formatter and no constants. |
| `Config.Logger.SetOutput` | log.go:17-19 | Replaces the output and nothing else. |
| `Config.Logger.SetLevel` | log.go:22-24 | Replaces the minimum level and nothing else. |
| `Config.Logger.SetFormatter` | log.go:27-29 | Replaces the formatter and nothing else. |
| `Config.Logger.SetConstant` | log.go:32-34 | Sets one constant to the value given. All other constants and all other settings are unchanged. |
| `Entries.WithData` | entry.go:76-100 | `With` never removes a key, and it changes only the keys its input names: none for nil, "error" for an error, the map's keys for a map, the type name for a struct, and "values" for anything else. |
| `Entries.WithNilUnchanged` | entry.go:77-78 | `With(nil)` leaves the data unchanged. |
| `Entries.WithErrorStoresText` | entry.go:79-80 | An error stores its text under "error", replacing any earlier one. No other key changes. |
| `Entries.WithPointerDereferences` | entry.go:82-84 | A pointer to a map, a struct or a plain value acts as the value it points to. |
| `Entries.WithMapMerges` | entry.go:87-91 | Every key of the map takes the map's value. Every other key keeps its own. |
| `Entries.WithStructStoresByTypeName` | entry.go:92-93 | A struct is stored whole under its type name ("" when anonymous). No other key changes. |
| `Entries.WithValueAppends` | entry.go:94-99 | A plain value goes at the end of the "values" list. The list is created when absent or nil, and no other key changes. |
| `Entries.WithChainKeepsOrder` | entry.go:94-99 | A chain of `With` calls on plain values lists them under "values" in call order, after what was there. No other key changes. |
| `Entries.TypedValuesRejected` | entry.go:96-97 | When "values" holds a slice of a type other than `[]interface{}`, appending a plain value (directly or through a pointer) is outside `With`'s precondition, because the type assertion panics. |
| `Entries.Emitted` | entry.go:111-118 | One emission yields at most one line. It yields a line exactly when the level is at least the minimum, and that line is the formatter's rendering of the entry. |
| `Entries.EmittedMonotone` | entry.go:113 | Raising the minimum level never lets more through. |
| `Entries.WriteFailed` | entry.go:115 | The diagnostic for a failed write is "can not write on output: " followed by the error text, which can be read back from it. |
| `Entries.Entry.constructor` | entry.go:32-36 | A new entry has the given time and source, empty data, an empty message and level Debug. |
| `Entries.Entry.CopyIn` | entry.go:37-39 | The key-by-key copy loop leaves the data equal to the old data overridden by the copied map. |
| `Entries.Entry.With` | entry.go:75-103 | The new data is `WithData` of the old data. Time, level, source and message are unchanged. The pointer must not be nil, and any existing "values" must be nil or a list. |
| `Entries.Entry.Value` | entry.go:106-109 | Sets one key verbatim. No other key or field changes. |
| `Entries.Entry.Log` | entry.go:111-118 | Records the message and keeps the level and data. The output gains exactly the lines `Emitted` gives for the entry. When the output rejects the write, the output is unchanged and one diagnostic is recorded instead. The configuration is unchanged. |
| `Entries.Entry.Debug` | entry.go:44-47 | Sets level Debug, then emits as `Log` does. |
| `Entries.Entry.Info` | entry.go:50-53 | Sets level Info, then emits as `Log` does. |
| `Entries.Entry.Warning` | entry.go:56-59 | Sets level Warning, then emits as `Log` does. |
| `Entries.Entry.Error` | entry.go:62-65 | Sets level Error, then emits as `Log` does. |
| `Entries.Entry.Fatal` | entry.go:68-72 | Sets level Fatal and emits as `Log` does. The process then exits with code 1. |
| `Entries.NewEntry` | entry.go:27-41 | A fresh entry whose data is a copy of the current constants, with an empty message and level Debug. |
| `Log.Debug` | log.go:37-39 | Emits an entry built from the constants at level Debug, with the effect `Entries.Wrote` describes. |
| `Log.Info` | log.go:42-44 | The same at level Info. |
| `Log.Warning` | log.go:47-49 | The same at level Warning. |
| `Log.Error` | log.go:52-54 | The same at level Error. |
| `Log.Fatal` | log.go:57-59 | The same at level Fatal, after which the process exits with code 1. |
| `Log.With` | log.go:62-64 | A fresh, unemitted entry whose data is `WithData(constants, d)`. |
| `Log.Value` | log.go:67-69 | A fresh, unemitted entry whose data is the constants plus the one key. |
| `Log.ThresholdRun` | log_test.go:93-120 | With the minimum at Warning, Debug("x") then Error("y") write exactly one line: the text rendering of the Error entry. |
| `Log.DefaultLevelRun` | log.go:10 | Under the defaults, Debug is dropped and Info is written in text form. |
| `Log.ConstantRun` | log_test.go:69-90 | A constant set after an entry was built does not reach that entry. It does reach entries built afterwards. |
| `Log.JsonConstantRun` | log_test.go:69-90 | A variant of the constants test, run at the default minimum level Info (log.go:10) rather than the test's Debug. With the JSON formatter and a constant set, Debug is dropped. Info and Fatal each write the marshal of an entry carrying the constant, and Fatal then exits with code 1. |
| `Log.FailingSinkRun` | entry.go:114-116 | An output that rejects writes receives nothing. Each write that passed the level gate is reported once as "can not write on output: …". |
| `Log.WithChainRun` | log_test.go:158-162 | `With("value1").With("value2").With("value3")` lists the three values in order under "values". |

## Left out

- Caller lookup (`runtime.Caller`, `FuncForPC`) is not modelled. The source string is a parameter.
- `time.Now` and the time layout "2006-01-02 15:04:05.999-07:00" are not modelled. The time is an integer parameter, and its rendering is the abstract `Codecs.timeText`.
- `json.Marshal` and `yaml.Marshal` are abstract functions. The model does not describe the bytes they produce. Their error results are ignored, as in the source.
- The line terminator that `fmt.Fprintln` adds is not modelled. The output is a sequence of lines.
- The date and time prefix that the standard `log` package puts on a diagnostic is not modelled. A diagnostic holds only the message text.
- A failing write is modelled by the `Writer` rejecting every write. Partial writes are not modelled.
- Entry.Fatal: ends the process with `os.Exit(1)` directly. The overridable `exit` variable declared at log.go:11 is never consulted, so the model records the exit and has no hook. The tests that replace `exit` assume a hook that the code does not call.
- Entries.Entry.With: rejects by precondition the inputs on which the source panics: a nil pointer, and a non-nil "values" entry that is not a `[]interface{}` (a slice of another element type included, see `Entries.TypedValuesRejected`).
- A map with non-string keys (stored under `key.String()`) is not modelled: `Dict` has string keys only.
- A pointer to a pointer, or to an error value, is modelled as the pointed-to value going onto the "values" list. In Go such a value has pointer kind after one dereference, which is what sends it there. A concrete error type of struct kind would be stored under its type name instead, and the model does not tell the two apart.
- `strings.ToUpper` is modelled for ASCII only. It is only ever applied to the five level names and "Unknown".
- An `Entry` built by hand (`&Entry{}`) with a nil data map is not modelled: every entry here has a map. Such an entry differs in two ways. `With` and `Value` on it panic with "assignment to entry in nil map" (entry.go:80, 90, 93, 99, 107), while in the model they always succeed. And only the text formatter renders a nil map like an empty one (both skip the data block at formatter.go:42); `json.Marshal` at formatter.go:58 writes `"Data":null` for a nil map and `"Data":{}` for an empty one.
- Formatters other than the three built-in ones are not modelled. The `NewTextFormatter`, `NewJSONFormatter` and `NewYAMLFormatter` constructors are the constructors `Text`, `Json` and `Yaml`.
- Concurrent use of the package variables is not modelled. The model is single-threaded.
- The example program examples/main.go is not modelled. It only calls the public functions.
- The model follows the code as written: process exit is not injectable, the colour codes are always written, and the time layout drops trailing zeros of the fraction.
- Go stores maps and slices by reference; the model stores them as values, so aliasing is not captured. `NewEntry` copies the constants shallowly (entry.go:37-39), so a map or slice constant is shared by every entry built from it. `append` at entry.go:99 may write into the backing array of a slice stored elsewhere when it has spare capacity. In the model each entry's "values" list is its own value, and entries never see each other's appends.
- `SetOutput(nil)` and `SetFormatter(nil)` are not modelled: the output is always a `Writer` object and the formatter always one of `Text`, `Json`, `Yaml`. In Go the next emission that passes the level gate panics at entry.go:114 in either case.
- Nothing in the model stops once `Fatal` has recorded the exit: later calls still run and may still write lines. In Go no code runs after `os.Exit(1)` at entry.go:71. Callers of the model should read `process.exited` as the end of the run.
- Strings are sequences of Unicode characters. A Go string is a byte string and may hold invalid UTF-8, which `strings.TrimSpace` decodes as U+FFFD and keeps unchanged; such a message or rendering cannot be represented here.
