/**
 The text side of the configuration tool diffconf2.py: how readconfig takes a file apart
 and how print_config writes one option, with the proof that the second is read back by
 the first.
 */
module ConfigText {

  type Config = map<string, string>

  /** `Err` is the exception of a CONFIG_ line that has no "=". */
  datatype Result = Ok(config: Config) | Err
  datatype Style = Diff | Apply

  const OPTION := "CONFIG_"
  const REMOVED := "-CONFIG_"
  const COMMENT := "# CONFIG_"
  const NOT_SET := " is not set"

  predicate EndsWith(s: string, suffix: string) {
    |suffix| <= |s| && s[|s| - |suffix|..] == suffix
  }

  /** The position of the first `c`, or the length. */
  function Find(s: string, c: char): (k: nat)
    ensures k <= |s| && c !in s[..k] && (k < |s| ==> s[k] == c)
  {
    if s == "" || s[0] == c then 0 else 1 + Find(s[1..], c)
  }

  lemma {:induction false} FindFirst(s: string, c: char, t: string)
    requires c !in s
    ensures Find(s + [c] + t, c) == |s|
  {
    if s != "" {
      FindFirst(s[1..], c, t);
      assert (s + [c] + t)[1..] == s[1..] + [c] + t;
    } else {
      assert (s + [c] + t)[0] == c;
    }
  }

  // ------------------------------------------------------------------- reading

  /** The Python slice line[9:-11] of a line that ends in " is not set". */
  function NotSetName(line: string): string
    requires EndsWith(line, NOT_SET)
  {
    if |line| < 20 then "" else line[9..|line| - 11]
  }

  predicate Unparsable(line: string) {
    OPTION <= line && '=' !in line[7..]
  }

  /** The name and value of an option line are what is before and after its first "=". */
  function WithOption(d: Config, line: string): Config
    requires !Unparsable(line)
  {
    if OPTION <= line then
      var rest := line[7..];
      var k := Find(rest, '=');
      assert k < |rest| by { assert rest[..|rest|] == rest; }
      d[rest[..k] := rest[k + 1..]]
    else d
  }

  function WithNotSet(d: Config, line: string): Config {
    if EndsWith(line, NOT_SET) then d[NotSetName(line) := "n"] else d
  }

  function WithRemoved(d: Config, line: string): Config {
    if REMOVED <= line then d[line[8..] := "-"] else d
  }

  /** The three tests readconfig makes, one after the other, on a line without its last character. */
  function ParseLine(d: Config, line: string): Result {
    if Unparsable(line) then Err else Ok(WithRemoved(WithNotSet(WithOption(d, line), line), line))
  }

  /** The lines of a file, each with its newline; the last one may lack it. */
  function Lines(text: string): (lines: seq<string>)
    ensures forall i :: 0 <= i < |lines| ==> lines[i] != ""
  {
    if text == "" then []
    else
      var k := Find(text, '\n');
      if k == |text| then [text] else [text[..k + 1]] + Lines(text[k + 1..])
  }

  function Chop(line: string): string
    requires line != ""
  {
    line[..|line| - 1]
  }

  function ParseLines(d: Config, lines: seq<string>): Result
    requires forall i :: 0 <= i < |lines| ==> lines[i] != ""
    decreases |lines|
  {
    if lines == [] then Ok(d)
    else match ParseLine(d, Chop(lines[0]))
      case Err => Err
      case Ok(e) => ParseLines(e, lines[1..])
  }

  function Parse(text: string): Result {
    ParseLines(map[], Lines(text))
  }

  /** The body of the loop of readconfig. */
  method ReadLine(d0: Config, line: string) returns (r: Result)
    ensures r == ParseLine(d0, line)
  {
    var d := d0;
    if OPTION <= line {
      var rest := line[7..];
      var k := Find(rest, '=');
      if k == |rest| {
        assert rest[..k] == rest;
        return Err;
      }
      d := d[rest[..k] := rest[k + 1..]];
    }
    if EndsWith(line, NOT_SET) {
      d := d[NotSetName(line) := "n"];
    }
    if REMOVED <= line {
      d := d[line[8..] := "-"];
    }
    r := Ok(d);
  }

  /** readconfig */
  method ReadConfig(text: string) returns (r: Result)
    ensures r == Parse(text)
  {
    var lines := Lines(text);
    r := Ok(map[]);
    var i := 0;
    while i < |lines|
      invariant 0 <= i <= |lines|
      invariant r.Ok? && Parse(text) == ParseLines(r.config, lines[i..])
    {
      assert lines[i..][1..] == lines[i + 1..];
      r := ReadLine(r.config, Chop(lines[i]));
      if r.Err? {
        return;
      }
      i := i + 1;
    }
  }

  /** Reading fails exactly when some line starts like an option and has no "=". */
  lemma {:induction false} FailsExactly(d: Config, lines: seq<string>)
    requires forall i :: 0 <= i < |lines| ==> lines[i] != ""
    ensures ParseLines(d, lines) == Err <==> exists i :: 0 <= i < |lines| && Unparsable(Chop(lines[i]))
    decreases |lines|
  {
    if lines != [] && !Unparsable(Chop(lines[0])) {
      FailsExactly(ParseLine(d, Chop(lines[0])).config, lines[1..]);
      assert forall i :: 0 < i < |lines| ==> lines[i] == lines[1..][i - 1];
    }
  }

  lemma SingleLine(d: Config, line: string)
    requires line != ""
    ensures ParseLines(d, [line]) == ParseLine(d, Chop(line))
  {
    assert [line][1..] == [];
  }

  /** A last line without a newline loses its last character instead. */
  lemma UnterminatedLine(line: string)
    requires line != "" && '\n' !in line
    ensures Parse(line) == Parse(Chop(line) + "\n")
  {
    assert Lines(line) == [line];
    var ended := Chop(line) + "\n";
    FirstLine(Chop(line), "");
    assert Lines(ended) == [ended] by {
      assert Chop(line) + "\n" + "" == ended;
    }
    SingleLine(map[], line);
    SingleLine(map[], ended);
  }

  lemma FirstLine(line: string, rest: string)
    requires '\n' !in line
    ensures Lines(line + "\n" + rest) == [line + "\n"] + Lines(rest)
  {
    var text := line + "\n" + rest;
    FindFirst(line, '\n', rest);
    assert text[..|line| + 1] == line + "\n";
    assert text[|line| + 1..] == rest;
  }

  // ------------------------------------------------------------- other lines

  /** Neither an option, nor a removal, nor a "not set" comment: blank lines, other comments, includes. */
  predicate Ignored(line: string) {
    !(OPTION <= line) && !(REMOVED <= line) && !EndsWith(line, NOT_SET)
  }

  /** Such lines, and no others, leave every dictionary as it is. */
  lemma IgnoredExactly(line: string)
    ensures Ignored(line) <==> forall d: Config :: ParseLine(d, line) == Ok(d)
  {
    if Ignored(line) {
      assert forall d: Config :: ParseLine(d, line) == Ok(d);
    } else {
      var none: Config := map[];
      if !Unparsable(line) {
        var d1 := WithOption(none, line);
        var d2 := WithNotSet(d1, line);
        assert d1.Keys <= d2.Keys <= WithRemoved(d2, line).Keys;
        assert WithRemoved(d2, line).Keys != {} by {
          if OPTION <= line {
            var rest := line[7..];
            assert rest[..Find(rest, '=')] in d1;
          } else if REMOVED <= line {
            assert line[8..] in WithRemoved(d2, line);
          } else {
            assert NotSetName(line) in d2;
          }
        }
      }
      assert ParseLine(none, line) != Ok(none);
    }
  }

  /** A "not set" line names what stands between its first nine characters and the ending, whatever the nine are. */
  lemma NotSetNames(d: Config, head: string, name: string)
    requires |head| == 9 && !(OPTION <= head) && !(REMOVED <= head)
    ensures ParseLine(d, head + name + NOT_SET) == Ok(d[name := "n"])
  {
    var line := head + name + NOT_SET;
    assert line[|line| - 11..] == NOT_SET;
    assert line[9..|line| - 11] == name;
    assert line[..7] == head[..7] && line[..8] == head[..8];
  }

  lemma NewlineFound(text: string)
    requires text != "" && text[|text| - 1] == '\n'
    ensures Find(text, '\n') < |text|
  {
    assert text[..|text|] == text;
  }

  lemma Cut(text: string, k: nat)
    requires k < |text| && text[k] == '\n'
    ensures text == text[..k] + "\n" + text[k + 1..]
  {
  }

  lemma Regroup<T>(p: seq<T>, q: seq<T>, r: seq<T>)
    ensures p + (q + r) == p + q + r
  {
  }

  lemma {:induction false} LinesStep(line: string, tail: string, text: string, rest: string)
    requires '\n' !in line && text == line + "\n" + tail
    requires Lines(tail + rest) == Lines(tail) + Lines(rest)
    ensures Lines(text + rest) == Lines(text) + Lines(rest)
  {
    FirstLine(line, tail);
    FirstLine(line, tail + rest);
    Regroup(line + "\n", tail, rest);
    Regroup([line + "\n"], Lines(tail), Lines(rest));
  }

  /** The files of the tool are read line by line: a part that ends in a newline can be read on its own. */
  lemma {:induction false} LinesSplit(text: string, rest: string)
    requires text == "" || text[|text| - 1] == '\n'
    ensures Lines(text + rest) == Lines(text) + Lines(rest)
  {
    if text == "" {
      assert text + rest == rest;
    } else {
      NewlineFound(text);
      var k := Find(text, '\n');
      LinesSplit(text[k + 1..], rest);
      Cut(text, k);
      LinesStep(text[..k], text[k + 1..], text, rest);
    }
  }

  lemma {:induction false} ParseSplit(d: Config, xs: seq<string>, ys: seq<string>)
    requires forall i :: 0 <= i < |xs| ==> xs[i] != ""
    requires forall i :: 0 <= i < |ys| ==> ys[i] != ""
    ensures ParseLines(d, xs + ys) ==
            match ParseLines(d, xs) case Err => Err case Ok(e) => ParseLines(e, ys)
    decreases |xs|
  {
    if xs == [] {
      assert xs + ys == ys;
    } else {
      assert (xs + ys)[1..] == xs[1..] + ys;
      match ParseLine(d, Chop(xs[0]))
      case Err =>
      case Ok(e) => ParseSplit(e, xs[1..], ys);
    }
  }

  /** An ignored line can be inserted or deleted after any line of a file without a change of the result. */
  lemma IgnoredAnywhere(before: string, line: string, after: string)
    requires before == "" || before[|before| - 1] == '\n'
    requires '\n' !in line && Ignored(line)
    ensures Parse(before + (line + "\n" + after)) == Parse(before + after)
  {
    LinesSplit(before, line + "\n" + after);
    LinesSplit(before, after);
    FirstLine(line, after);
    ParseSplit(map[], Lines(before), Lines(line + "\n" + after));
    ParseSplit(map[], Lines(before), Lines(after));
    match ParseLines(map[], Lines(before))
    case Err =>
    case Ok(e) => SkipsIgnored(e, line, after);
  }

  lemma SkipsIgnored(d: Config, line: string, after: string)
    requires '\n' !in line && Ignored(line)
    ensures ParseLines(d, Lines(line + "\n" + after)) == ParseLines(d, Lines(after))
  {
    FirstLine(line, after);
    assert Chop(line + "\n") == line;
    assert ([line + "\n"] + Lines(after))[1..] == Lines(after);
  }

  // ------------------------------------------------------------------ printing

  /** print_config in the -d and -a styles: the text written for one option. */
  function Print(style: Style, name: string, values: Config): string {
    if name in values && values[name] != "" then
      if values[name] == "n" then COMMENT + name + NOT_SET + "\n" else OPTION + name + "=" + values[name] + "\n"
    else if style == Diff then REMOVED + name + "\n"
    else ""
  }

  function PrintAll(style: Style, names: seq<string>, values: Config): string {
    if names == [] then "" else Print(style, names[0], values) + PrintAll(style, names[1..], values)
  }

  /** The names the tool is made for; kconfig's own names satisfy this. */
  predicate WellFormedName(name: string) {
    '=' !in name && '\n' !in name && !EndsWith(name, NOT_SET)
  }

  /** The values that stay on their line and do not look like the end of a comment. */
  predicate PlainValue(value: string) {
    '\n' !in value && !EndsWith(value, NOT_SET)
  }

  ghost predicate Plain(names: seq<string>, values: Config) {
    && (forall i :: 0 <= i < |names| ==> WellFormedName(names[i]))
    && (forall c :: c in values ==> PlainValue(values[c]))
  }

  /** A suffix with no `c` in it cannot reach back over a `c`. */
  lemma SuffixStays(head: string, c: char, tail: string, suffix: string)
    requires c !in suffix
    ensures EndsWith(head + [c] + tail, suffix) <==> EndsWith(tail, suffix)
  {
    var s := head + [c] + tail;
    if |suffix| <= |tail| {
      assert s[|s| - |suffix|..] == tail[|tail| - |suffix|..];
    } else if |suffix| <= |s| {
      assert s[|head|] == c;
      assert c in s[|s| - |suffix|..] by {
        assert s[|s| - |suffix|..][|head| - (|s| - |suffix|)] == c;
      }
    }
  }

  lemma ReadsOption(d: Config, name: string, value: string)
    requires WellFormedName(name) && PlainValue(value)
    ensures ParseLine(d, OPTION + name + "=" + value) == Ok(d[name := value])
  {
    var line := OPTION + name + "=" + value;
    var rest := name + "=" + value;
    assert line[7..] == rest;
    assert rest[|name|] == '=';
    FindFirst(name, '=', value);
    assert rest[..|name|] == name && rest[|name| + 1..] == value;
    SuffixStays(OPTION + name, '=', value, NOT_SET);
    assert line[0] == 'C';
  }

  lemma ReadsNotSet(d: Config, name: string)
    ensures ParseLine(d, COMMENT + name + NOT_SET) == Ok(d[name := "n"])
  {
    var line := COMMENT + name + NOT_SET;
    assert line[|line| - 11..] == NOT_SET;
    assert line[9..|line| - 11] == name;
    assert line[0] == '#';
  }

  lemma ReadsRemoved(d: Config, name: string)
    requires WellFormedName(name)
    ensures ParseLine(d, REMOVED + name) == Ok(d[name := "-"])
  {
    var line := REMOVED + name;
    assert line[8..] == name && line[0] == '-';
    assert REMOVED == "-CONFIG" + ['_'] + "";
    SuffixStays("-CONFIG", '_', name, NOT_SET);
    assert line == "-CONFIG" + ['_'] + name;
  }

  /** What one printed option does to the dictionary that reads it. */
  function Put(style: Style, d: Config, name: string, values: Config): Config {
    if name in values && values[name] != "" then d[name := values[name]]
    else if style == Diff then d[name := "-"]
    else d
  }

  function PutAll(style: Style, d: Config, names: seq<string>, values: Config): Config
    decreases |names|
  {
    if names == [] then d else PutAll(style, Put(style, d, names[0], values), names[1..], values)
  }

  /** Reading a terminated line and then the rest. */
  lemma ReadsLine(d: Config, line: string, rest: string)
    requires '\n' !in line && ParseLine(d, line).Ok?
    ensures ParseLines(d, Lines(line + "\n" + rest)) == ParseLines(ParseLine(d, line).config, Lines(rest))
  {
    FirstLine(line, rest);
    assert Chop(line + "\n") == line;
    assert ([line + "\n"] + Lines(rest))[1..] == Lines(rest);
  }

  lemma ReadsPrinted(style: Style, d: Config, name: string, values: Config, rest: string)
    requires WellFormedName(name) && (name in values ==> PlainValue(values[name]))
    ensures ParseLines(d, Lines(Print(style, name, values) + rest))
            == ParseLines(Put(style, d, name, values), Lines(rest))
  {
    if name in values && values[name] != "" {
      if values[name] == "n" {
        ReadsNotSet(d, name);
        ReadsLine(d, COMMENT + name + NOT_SET, rest);
      } else {
        ReadsOption(d, name, values[name]);
        ReadsLine(d, OPTION + name + "=" + values[name], rest);
      }
    } else if style == Diff {
      ReadsRemoved(d, name);
      ReadsLine(d, REMOVED + name, rest);
    } else {
      assert Print(style, name, values) + rest == rest;
    }
  }

  /** Whatever the tool prints, readconfig takes back option by option. */
  lemma {:induction false} ReadsBack(style: Style, d: Config, names: seq<string>, values: Config)
    requires Plain(names, values)
    ensures ParseLines(d, Lines(PrintAll(style, names, values))) == Ok(PutAll(style, d, names, values))
    decreases |names|
  {
    if names != [] {
      ReadsPrinted(style, d, names[0], values, PrintAll(style, names[1..], values));
      ReadsBack(style, Put(style, d, names[0], values), names[1..], values);
    }
  }

  /** The dictionary read back, name by name. */
  lemma {:induction false} PutAllAt(style: Style, d: Config, names: seq<string>, values: Config, c: string)
    ensures var u, one := PutAll(style, d, names, values), Put(style, map[], c, values);
            if c in names && c in one then c in u && u[c] == one[c]
                else (c in u <==> c in d) && (c in d ==> u[c] == d[c])
    decreases |names|
  {
    if names != [] {
      PutAllAt(style, Put(style, d, names[0], values), names[1..], values, c);
    }
  }

  /** A value that does end in " is not set" is read as two options. */
  lemma NotSetValueSplits(d: Config, name: string, value: string)
    requires WellFormedName(name) && value != ""
    ensures ParseLine(d, OPTION + name + "=" + value + NOT_SET)
            == Ok(d[name := value + NOT_SET][(OPTION + name + "=" + value)[9..] := "n"])
  {
    var line := OPTION + name + "=" + value + NOT_SET;
    var rest := name + "=" + (value + NOT_SET);
    assert line[7..] == rest;
    assert rest[|name|] == '=';
    FindFirst(name, '=', value + NOT_SET);
    assert rest[..|name|] == name && rest[|name| + 1..] == value + NOT_SET;
    assert line[|line| - 11..] == NOT_SET;
    assert line[9..|line| - 11] == (OPTION + name + "=" + value)[9..];
    assert line[0] == 'C';
  }
}
