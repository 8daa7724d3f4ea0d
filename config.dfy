/** The package-wide logging state of log.go, held in one object. */
module Config {
  import opened Wrappers
  import opened Levels
  import opened Values
  import opened Formatters

  /** An output sink (`io.Writer`): the lines written to it so far. A sink
      whose `failure` is set rejects every write with that error text. */
  class Writer {
    var lines: seq<string>
    const failure: Option<string>

    constructor (failure: Option<string>)
      ensures lines == [] && this.failure == failure
    {
      lines := [];
      this.failure := failure;
    }
  }

  /** The state of the process: whether it has exited, and with which code. */
  class Process {
    var exited: bool
    var exitCode: int

    constructor ()
      ensures !exited
    {
      exited := false;
      exitCode := 0;
    }
  }

  /** The package variables `output`, `level`, `formatter` and `constants`,
      the diagnostics written by the standard `log` package, and the process
      the package runs in. */
  class Logger {
    var output: Writer
    var minLevel: Level
    var formatter: Formatter
    var constants: map<string, Val>
    var diagnostics: seq<string>
    const process: Process
    const codecs: Codecs

    /** The defaults: standard output, minimum level Info, the text
        formatter, no constants. */
    constructor (codecs: Codecs)
      ensures fresh(output) && output.lines == [] && output.failure == None
      ensures minLevel == Info && formatter == Text && constants == map[]
      ensures diagnostics == [] && fresh(process) && !process.exited && this.codecs == codecs
    {
      output := new Writer(None);
      minLevel := Info;
      formatter := Text;
      constants := map[];
      diagnostics := [];
      process := new Process();
      this.codecs := codecs;
    }

    /** `SetOutput`: replaces the sink and nothing else. */
    method SetOutput(w: Writer)
      modifies this
      ensures output == w
      ensures minLevel == old(minLevel) && formatter == old(formatter) && constants == old(constants)
      ensures diagnostics == old(diagnostics)
    {
      output := w;
    }

    /** `SetLevel`: replaces the minimum level and nothing else. */
    method SetLevel(lvl: Level)
      modifies this
      ensures minLevel == lvl
      ensures output == old(output) && formatter == old(formatter) && constants == old(constants)
      ensures diagnostics == old(diagnostics)
    {
      minLevel := lvl;
    }

    /** `SetFormatter`: replaces the formatter and nothing else. */
    method SetFormatter(f: Formatter)
      modifies this
      ensures formatter == f
      ensures output == old(output) && minLevel == old(minLevel) && constants == old(constants)
      ensures diagnostics == old(diagnostics)
    {
      formatter := f;
    }

    /** `SetConstant`: sets one constant, keeps the others. */
    method SetConstant(key: string, value: Val)
      modifies this
      ensures constants == old(constants)[key := value]
      ensures key in constants && constants[key] == value
      ensures SameExcept(constants, old(constants), {key})
      ensures output == old(output) && minLevel == old(minLevel) && formatter == old(formatter)
      ensures diagnostics == old(diagnostics)
    {
      constants := constants[key := value];
    }
  }
}
