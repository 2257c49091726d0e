/** Reading a generated index file: what a text says when it is taken line by line. */
module IndexText {
  import opened Optional
  import opened IndexGenerator

  /** The lines of a text, without their line ends. */
  function Lines(text: string): (lines: seq<string>)
    ensures lines != []
  {
    if text == "" then [""]
    else
      var front, c := Lines(text[..|text| - 1]), text[|text| - 1];
      if c == '\n' then front + [""] else front[..|front| - 1] + [front[|front| - 1] + [c]]
  }

  /** A comment line, an import with what its braces enclose and the file that it names, or an export line. */
  datatype Piece =
    | Comment(text: string)
    | Import(items: seq<string>, path: string)
    | Exported(kind: Kind, name: string, isDefault: bool)

  /** `open` holds the items of an import statement whose closing brace is still to come. */
  datatype Told = Told(pieces: seq<Piece>, open: Option<seq<string>>)

  const NOTHING := Told([], None)

  predicate Starts(line: string, prefix: string) {
    |prefix| <= |line| && line[..|prefix|] == prefix
  }

  predicate Ends(line: string, suffix: string) {
    |suffix| <= |line| && line[|line| - |suffix|..] == suffix
  }

  /** A line without what stands in front and behind. */
  function Inner(line: string, front: nat, behind: nat): string {
    if front + behind <= |line| then line[front..|line| - behind] else ""
  }

  /** The place of the first closing brace, or the end. */
  function Brace(line: string): (n: nat)
    ensures n <= |line|
  {
    if line == "" || line[0] == '}' then 0 else 1 + Brace(line[1..])
  }

  /** The path of a line that closes an import: `} from './path.js';`. */
  function PathOf(line: string): string { Inner(line, |"} from './"|, |".js';"|) }

  /** The item of an indented line, without the comma behind it. */
  function ItemOf(line: string): string { Inner(line, 2, if Ends(line, ",") then 1 else 0) }

  function ReadExport(line: string): seq<Piece> {
    if Starts(line, "export type { ") then [Exported(TypeKind, Inner(line, |"export type { "|, |" };"|), false)]
    else if !Starts(line, "export { ") then []
    else if Ends(line, " as default };") then
      [Exported(ValueKind, Inner(line, |"export { "|, |" as default };"|), true)]
    else [Exported(ValueKind, Inner(line, |"export { "|, |" };"|), false)]
  }

  function ReadLine(told: Told, line: string): Told {
    if told.open.Some? then
      if Starts(line, "}") then
        told.(pieces := told.pieces + [Import(told.open.value, PathOf(line))], open := None)
      else told.(open := Some(told.open.value + [ItemOf(line)]))
    else if line == "import {" then told.(open := Some([]))
    else if Starts(line, "import {") then
      var rest := line[|"import {"|..];
      told.(pieces := told.pieces + [Import([rest[..Brace(rest)]], PathOf(rest[Brace(rest)..]))])
    else if Starts(line, "/") then told.(pieces := told.pieces + [Comment(line)])
    else told.(pieces := told.pieces + ReadExport(line))
  }

  function ReadLines(told: Told, lines: seq<string>): Told {
    if lines == [] then told else ReadLine(ReadLines(told, lines[..|lines| - 1]), lines[|lines| - 1])
  }

  function Read(told: Told, text: string): Told { ReadLines(told, Lines(text)) }

  // --------------------------------------------------------------- lines of parts

  lemma LinesSnoc(text: string, c: char)
    ensures var lines := Lines(text);
            Lines(text + [c]) == if c == '\n' then lines + [""]
                                 else lines[..|lines| - 1] + [lines[|lines| - 1] + [c]]
  {
    assert (text + [c])[..|text|] == text;
  }

  lemma NoLines()
    ensures Lines("") == [""]
  {
  }

  lemma {:induction false} LinesOfTwo(a: string, b: string)
    ensures Lines(a + "\n" + b) == Lines(a) + Lines(b)
  {
    hide Lines;
    NoLines();
    if b == "" {
      assert a + "\n" + b == a + ['\n'];
      LinesSnoc(a, '\n');
    } else {
      var front, c := b[..|b| - 1], b[|b| - 1];
      LinesOfTwo(a, front);
      assert b == front + [c] && a + "\n" + b == a + "\n" + front + [c];
      LinesSnoc(front, c);
      LinesSnoc(a + "\n" + front, c);
      LastOfTwo(Lines(a), Lines(front));
    }
  }

  lemma LastOfTwo(a: seq<string>, b: seq<string>)
    requires b != []
    ensures (a + b)[|a + b| - 1] == b[|b| - 1] && (a + b)[..|a + b| - 1] == a + b[..|b| - 1]
  {
  }

  lemma {:induction false} OneLine(line: string)
    requires '\n' !in line
    ensures Lines(line) == [line]
  {
    hide Lines;
    NoLines();
    if line != "" {
      var front, c := line[..|line| - 1], line[|line| - 1];
      assert line == front + [c];
      OneLine(front);
      LinesSnoc(front, c);
    }
  }

  lemma {:induction false} ReadTwo(told: Told, a: seq<string>, b: seq<string>)
    ensures ReadLines(told, a + b) == ReadLines(ReadLines(told, a), b)
  {
    if b == [] {
      assert a + b == a;
    } else {
      hide ReadLine;
      ReadTwo(told, a, b[..|b| - 1]);
      assert (a + b)[..|a + b| - 1] == a + b[..|b| - 1];
    }
  }

  lemma ReadOn(told: Told, a: string, b: string)
    ensures Read(told, a + "\n" + b) == Read(Read(told, a), b)
  {
    hide Lines, ReadLines;
    LinesOfTwo(a, b);
    ReadTwo(told, Lines(a), Lines(b));
  }

  lemma ReadOne(told: Told, line: string)
    requires '\n' !in line
    ensures Read(told, line) == ReadLine(told, line)
  {
    hide ReadLine, Lines;
    OneLine(line);
    assert [line][..0] == [] && ReadLines(told, []) == told;
  }

  // ------------------------------------------------------- reading only ever adds

  function Plus(a: Told, b: Told): Told {
    Told(a.pieces + b.pieces, b.open)
  }

  lemma LineAdds(a: Told, b: Told, line: string)
    ensures ReadLine(Plus(a, b), line) == Plus(a, ReadLine(b, line))
  {
    hide Starts, Brace, PathOf, ItemOf, ReadExport;
  }

  lemma {:induction false} LinesAdd(a: Told, lines: seq<string>)
    requires a.open.None?
    ensures ReadLines(a, lines) == Plus(a, ReadLines(NOTHING, lines))
  {
    if lines != [] {
      hide ReadLine;
      LinesAdd(a, lines[..|lines| - 1]);
      LineAdds(a, ReadLines(NOTHING, lines[..|lines| - 1]), lines[|lines| - 1]);
    }
  }

  lemma ReadAdds(a: Told, text: string)
    requires a.open.None?
    ensures Read(a, text) == Plus(a, Read(NOTHING, text))
  {
    hide Lines, ReadLines;
    LinesAdd(a, Lines(text));
  }

  // ------------------------------------------------------------- tame statements

  /** What no item of an import statement may contain. */
  predicate Tame(item: string) { '\n' !in item && ',' !in item && '}' !in item }

  predicate TameName(name: string) { Tame(name) && ' ' !in name }

  lemma {:induction false} BraceIs(item: string, rest: string)
    requires '}' !in item && rest != "" && rest[0] == '}'
    ensures Brace(item + rest) == |item|
  {
    if item == "" {
      assert item + rest == rest;
    } else {
      BraceIs(item[1..], rest);
      assert (item + rest)[1..] == item[1..] + rest;
    }
  }

  lemma ClosingLine(path: string)
    ensures var line := "} from './" + path + ".js';"; Starts(line, "}") && PathOf(line) == path
  {
  }

  /** An import statement on one line. */
  lemma LoneImport(told: Told, item: string, path: string)
    requires told.open.None? && Tame(item)
    ensures var line := "import {" + item + "} from './" + path + ".js';";
            ReadLine(told, line) == told.(pieces := told.pieces + [Import([item], path)])
  {
    hide PathOf, Brace;
    var closing := "} from './" + path + ".js';";
    var line := "import {" + item + "} from './" + path + ".js';";
    assert line == "import {" + (item + closing);
    assert line[|"import {"|..] == item + closing;
    BraceIs(item, closing);
    assert (item + closing)[..|item|] == item && (item + closing)[|item|..] == closing;
    ClosingLine(path);
  }

  lemma OpeningLine(told: Told)
    requires told.open.None?
    ensures ReadLine(told, "import {") == told.(open := Some([]))
  {
  }

  lemma ItemLine(told: Told, item: string, comma: string)
    requires told.open.Some? && Tame(item) && (comma == "" || comma == ",")
    ensures ReadLine(told, "  " + item + comma) == told.(open := Some(told.open.value + [item]))
  {
    var line := "  " + item + comma;
    assert line[0] == ' ';
    if comma == "" && item != "" {
      assert line[|line| - 1] == item[|item| - 1];
    }
    assert line[2..2 + |item|] == item;
  }

  lemma CloseImport(told: Told, path: string)
    requires told.open.Some?
    ensures ReadLine(told, "} from './" + path + ".js';")
            == told.(pieces := told.pieces + [Import(told.open.value, path)], open := None)
  {
    hide PathOf, Starts;
    ClosingLine(path);
  }

  // ---------------------------------------------------------------- export lines

  lemma TypeLine(told: Told, name: string)
    requires told.open.None?
    ensures ReadLine(told, "export type { " + name + " };")
            == told.(pieces := told.pieces + [Exported(TypeKind, name, false)])
  {
    var line := "export type { " + name + " };";
    assert line[0] == 'e' && line[..14] == "export type { ";
    assert line[14..14 + |name|] == name;
  }

  lemma DefaultLine(told: Told, name: string)
    requires told.open.None?
    ensures ReadLine(told, "export { " + name + " as default };")
            == told.(pieces := told.pieces + [Exported(ValueKind, name, true)])
  {
    var line := "export { " + name + " as default };";
    assert line[0] == 'e' && line[7] == '{' && line[..9] == "export { ";
    assert line[9..9 + |name|] == name && line[9 + |name|..] == " as default };";
  }

  lemma NotDefault(name: string)
    requires ' ' !in name
    ensures !Ends("export { " + name + " };", " as default };")
  {
    var line := "export { " + name + " };";
    assert line[..9] == "export { " && line[9..9 + |name|] == name;
    assert forall i :: 9 <= i < 9 + |name| ==> line[i] == name[i - 9];
    if |line| >= 14 {
      var tail := line[|line| - 14..];
      assert tail[0] == line[|line| - 14] && tail[3] == line[|line| - 11];
      assert tail[0] != ' ' || tail[3] != ' ';
    }
  }

  lemma ValueLine(told: Told, name: string)
    requires told.open.None? && ' ' !in name
    ensures ReadLine(told, "export { " + name + " };")
            == told.(pieces := told.pieces + [Exported(ValueKind, name, false)])
  {
    NotDefault(name);
    var line := "export { " + name + " };";
    assert line[0] == 'e' && line[7] == '{' && line[..9] == "export { ";
    assert line[9..9 + |name|] == name;
    hide Ends;
  }

  lemma CommentLine(told: Told, line: string)
    requires told.open.None? && Starts(line, "/")
    ensures ReadLine(told, line) == told.(pieces := told.pieces + [Comment(line)])
  {
    assert line[..1][0] == line[0] == '/';
    assert |line| >= 8 ==> line[..8][0] == '/';
  }

  lemma BlankLine(told: Told)
    requires told.open.None?
    ensures ReadLine(told, "") == told
  {
  }
}
