/** The three renderings of an entry (formatter.go). */
module Formatters {
  import opened Levels
  import opened Values
  import opened Strings

  /** A point in time; only the clock and the time formatter interpret it. */
  type Instant = int

  /** The entry value a formatter receives (Go passes `Entry` by value). */
  datatype Record = Record(raised: Instant, level: Level, source: string, message: string, data: map<string, Val>)

  /** The library functions the formatters call and the model leaves
      uninterpreted: the time layout "2006-01-02 15:04:05.999-07:00",
      `json.Marshal` of a whole entry, `yaml.Marshal` of a whole entry and
      `yaml.Marshal` of an entry's data map. */
  datatype Codecs = Codecs(
    timeText: Instant -> string,
    json: Record -> string,
    yaml: Record -> string,
    yamlData: map<string, Val> -> string)

  /** The formatter variants; none of them holds any state. */
  datatype Formatter = Text | Json | Yaml

  const Esc: char := '\U{1B}'
  const Reset: string := [Esc] + "[0m"

  /** The ANSI colour code of each declared level, indexed by level. */
  const Colours: seq<string> := ["0;37", "0;36", "0;33", "0;31", "1;31"]

  /** The upper-case names the text output shows, indexed by level. */
  const Capitals: seq<string> := ["DEBUG", "INFO", "WARNING", "ERROR", "FATAL"]

  function Coloured(code: string, text: string): string {
    [Esc] + "[" + code + "m" + text + Reset
  }

  /** The level column of the text output: the upper-cased name, wrapped in
      the level's colour; an undeclared level gets no colour at all. */
  function Label(lvl: Level): (r: string)
    ensures IsDeclared(lvl) ==> r == Coloured(Colours[lvl], Upper(Names[lvl]))
    ensures !IsDeclared(lvl) ==> r == Upper("Unknown")
  {
    var name := Upper(Name(lvl));
    if lvl == Fatal then Coloured("1;31", name)
    else if lvl == Error then Coloured("0;31", name)
    else if lvl == Warning then Coloured("0;33", name)
    else if lvl == Info then Coloured("0;36", name)
    else if lvl == Debug then Coloured("0;37", name)
    else name
  }

  /** The names the text output shows: DEBUG, INFO, WARNING, ERROR, FATAL
      and UNKNOWN. */
  lemma CapitalNames()
    ensures forall i :: 0 <= i < |Names| ==> Upper(Names[i]) == Capitals[i]
    ensures Upper("Unknown") == "UNKNOWN"
  {
    assert Upper("Debug") == "DEBUG";
    assert Upper("Info") == "INFO";
    assert Upper("Warning") == "WARNING";
    assert Upper("Error") == "ERROR";
    assert Upper("Fatal") == "FATAL";
    assert Upper("Unknown") == "UNKNOWN";
  }

  /** The colour code sits right after the escape character and the '['. */
  lemma ColouredCode(code: string, text: string)
    ensures |Coloured(code, text)| > 2 + |code|
    ensures Coloured(code, text)[0] == Esc
    ensures Coloured(code, text)[2..2 + |code|] == code
  {
  }

  /** Different declared levels are told apart in the text output, and an
      undeclared level never looks like a declared one. */
  lemma LabelInjective(a: Level, b: Level)
    requires Label(a) == Label(b)
    ensures a == b || (!IsDeclared(a) && !IsDeclared(b))
  {
    CapitalNames();
    if IsDeclared(a) {
      ColouredCode(Colours[a], Upper(Names[a]));
    }
    if IsDeclared(b) {
      ColouredCode(Colours[b], Upper(Names[b]));
    }
  }

  /** First line and source line: "time | LEVEL | message \n\tsource". */
  function Header(c: Codecs, rec: Record): string {
    c.timeText(rec.raised) + " | " + Label(rec.level) + " | " + TrimSpace(rec.message) + " \n\t" + rec.source
  }

  /** The data block: the YAML dump of the data, a tab after every line break,
      white space trimmed at both ends. */
  function DataBlock(c: Codecs, data: map<string, Val>): string {
    TrimSpace(IndentLines(c.yamlData(data)))
  }

  /** The header, followed by the data block on the next lines when there is
      one. */
  function Joined(header: string, block: string, present: bool): (r: string)
    ensures header <= r
    ensures present <==> r != header
    ensures present ==> r[|header|..] == "\n\t" + block
  {
    if present then
      var r := header + "\n\t" + block;
      assert r[..|header|] == header;
      assert r[|header|..] == "\n\t" + block;
      r
    else header
  }

  /** `textFormatter.Format`. */
  function TextFormat(c: Codecs, rec: Record): (r: string)
    ensures Header(c, rec) <= r
    ensures |rec.data| == 0 <==> r == Header(c, rec)
    ensures |rec.data| > 0 ==> r[|Header(c, rec)|..] == "\n\t" + DataBlock(c, rec.data)
  {
    Joined(Header(c, rec), DataBlock(c, rec.data), |rec.data| > 0)
  }

  /** `Formatter.Format` for each variant: the JSON and YAML formatters are
      exactly the marshal of the whole entry. */
  function Format(f: Formatter, c: Codecs, rec: Record): (r: string)
    ensures f == Text ==> r == TextFormat(c, rec) && Header(c, rec) <= r
    ensures f == Json ==> r == c.json(rec)
    ensures f == Yaml ==> r == c.yaml(rec)
  {
    match f
    case Text => TextFormat(c, rec)
    case Json => c.json(rec)
    case Yaml => c.yaml(rec)
  }

  /** A tab-indented block placed after a line break stays tab-indented. */
  lemma IndentedAfter(r: string, h: nat, block: string)
    requires h <= |r| && r[h..] == "\n\t" + block
    requires TabAfterEveryBreak(block)
    ensures forall i :: h <= i < |r| && r[i] == '\n' ==> i + 1 < |r| && r[i + 1] == '\t'
  {
    forall i | h <= i < |r| && r[i] == '\n'
      ensures i + 1 < |r| && r[i + 1] == '\t'
    {
      assert r[i] == r[h..][i - h];
      if i >= h + 2 {
        assert block[i - h - 2] == '\n';
      }
      assert r[i + 1] == r[h..][i + 1 - h];
    }
  }

  /** After the header, every line of the text output starts with a tab. */
  lemma TextDataLinesIndented(c: Codecs, rec: Record)
    ensures var r := TextFormat(c, rec);
      var h := |Header(c, rec)|;
      forall i :: h <= i < |r| && r[i] == '\n' ==> i + 1 < |r| && r[i + 1] == '\t'
  {
    if |rec.data| > 0 {
      TrimKeepsTabs(IndentLines(c.yamlData(rec.data)));
      IndentedAfter(TextFormat(c, rec), |Header(c, rec)|, DataBlock(c, rec.data));
    }
  }
}
