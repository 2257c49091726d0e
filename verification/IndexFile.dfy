/** The whole index file that scripts/generateIndex.ts writes, and what it says when it is read back. */
module IndexFile {
  import opened Optional
  import opened Sequences
  import opened Sorting
  import opened IndexGenerator
  import opened IndexStatements
  import opened IndexText

  function FirstLine(): string { "/* eslint import/order: 0 sort-imports: 0 */" }

  function SecondLine(): string { "// Auto-generated index file - Do not edit" }

  function ContentText(statements: Statements): string {
    FirstLine() + "\n" + SecondLine() + "\n\n" + Join(statements.imports, "\n") + "\n\n"
    + (if statements.values == [] then "" else "// Value exports\n" + Join(statements.values, "\n") + "\n\n")
    + if statements.types == [] then "" else "// Type exports\n" + Join(statements.types, "\n") + "\n"
  }

  /** `content` spells the index of the entries, its files visited in some order. */
  ghost predicate IsIndexFile(lt: Order, entries: seq<Entry>, content: string) {
    exists index: Index, paths: seq<string> :: Spells(lt, entries, index, paths, content)
  }

  ghost predicate Spells(lt: Order, entries: seq<Entry>, index: Index, paths: seq<string>, content: string) {
    IsIndex(lt, entries, index) && Lists(index, paths) && content == ContentText(StatementsFor(index, paths))
  }

  method GenerateIndexContent(lt: Order, entries: seq<Entry>) returns (content: string)
    requires TotalOrder(lt) && Clean(entries)
    ensures IsIndexFile(lt, entries, content)
    ensures TameEntries(entries) ==>
              exists index: Index :: IsIndex(lt, entries, index) && Tells(Read(NOTHING, content), index)
  {
    hide *;
    content := FirstLine() + "\n" + SecondLine() + "\n\n";
    var index := GenerateIndex(lt, entries);
    IndexListsAreDistinct(lt, entries, index);
    var statements;
    ghost var paths;
    statements, paths := GenerateStatements(index);
    content := content + Join(statements.imports, "\n") + "\n\n";
    ghost var begun := content;
    if |statements.values| > 0 {
      content := content + "// Value exports\n" + Join(statements.values, "\n") + "\n\n";
    }
    ghost var valued := content;
    if |statements.types| > 0 {
      content := content + "// Type exports\n" + Join(statements.types, "\n") + "\n";
    }
    ContentIs(statements, begun, valued, content);
    SpellsIs(lt, entries, index, paths, content);
    if TameEntries(entries) {
      IndexFileReads(lt, entries, index, paths, content);
    }
  }

  lemma ContentIs(s: Statements, begun: string, valued: string, content: string)
    requires begun == FirstLine() + "\n" + SecondLine() + "\n\n" + Join(s.imports, "\n") + "\n\n"
    requires valued == if |s.values| > 0 then begun + "// Value exports\n" + Join(s.values, "\n") + "\n\n" else begun
    requires content == if |s.types| > 0 then valued + "// Type exports\n" + Join(s.types, "\n") + "\n" else valued
    ensures content == ContentText(s)
  {
    hide Join, FirstLine, SecondLine;
    Appended(begun, "// Value exports\n", Join(s.values, "\n"), "\n\n");
    Appended(valued, "// Type exports\n", Join(s.types, "\n"), "\n");
    assert begun + "" == begun && valued + "" == valued;
  }

  lemma Appended(text: string, a: string, b: string, c: string)
    ensures text + a + b + c == text + (a + b + c)
  {
  }

  lemma SpellsIs(lt: Order, entries: seq<Entry>, index: Index, paths: seq<string>, content: string)
    requires IsIndex(lt, entries, index) && Lists(index, paths) && content == ContentText(StatementsFor(index, paths))
    ensures Spells(lt, entries, index, paths, content) && IsIndexFile(lt, entries, content)
  {
    hide IsIndex, Lists, ContentText, StatementsFor;
    assert Spells(lt, entries, index, paths, content);
  }

  /** The file is one text: no order of the export map, of its lists or of the selected files changes it. */
  lemma IndexFileUnique(lt: Order, first: seq<Entry>, second: seq<Entry>, a: string, b: string)
    requires TotalOrder(lt) && IsIndexFile(lt, first, a) && IsIndexFile(lt, second, b)
    requires forall item :: Offers(first, item) <==> Offers(second, item)
    ensures a == b
  {
    hide ContentText, StatementsFor, IsIndex, Lists, TotalOrder, Offers;
    var i, p :| Spells(lt, first, i, p, a);
    var j, q :| Spells(lt, second, j, q, b);
    OrderIndependent(lt, first, second, i, j);
    StatementsForgetOrder(i, p, q);
  }

  // ------------------------------------------------------------ what the file says

  /** The names are free of blanks, line ends, commas and braces, the paths of line ends. */
  ghost predicate TameEntries(entries: seq<Entry>) {
    forall item :: Offers(entries, item) ==> TameName(item.exp.name) && '\n' !in item.path
  }

  ghost predicate TameIndex(index: Index) {
    forall path :: path in index ==> '\n' !in path && index[path] != [] && TameExports(index[path])
  }

  predicate TameExports(exports: seq<Export>) {
    forall i :: 0 <= i < |exports| ==> TameName(exports[i].name)
  }

  /** The braces enclose exactly the exports' names, types marked as such. */
  ghost predicate Encloses(items: seq<string>, exports: seq<Export>) {
    && |items| == |exports|
    && forall item :: item in items <==>
         exists i :: 0 <= i < |exports|
                     && item == (if exports[i].kind == TypeKind then "type " + exports[i].name else exports[i].name)
  }

  function Shown(exp: Export): Piece {
    Exported(exp.kind, exp.name, exp.kind == ValueKind && exp.isDefault)
  }

  ghost predicate Stands(index: Index, kind: Kind, piece: Piece) {
    exists path, i :: At(index, path, i) && index[path][i].kind == kind && Shown(index[path][i]) == piece
  }

  /** Values come first and types, marked as such, after them, both in code unit order. */
  predicate Arranged(items: seq<string>) {
    forall i, j :: 0 <= i < j < |items| ==>
      if Starts(items[i], "type ") then Starts(items[j], "type ") && !Before(items[j], items[i])
      else Starts(items[j], "type ") || !Before(items[j], items[i])
  }

  function PathIn(piece: Piece): seq<string> { if piece.Import? then [piece.path] else [] }

  /** One import statement for every file and no other; its braces enclose exactly the file's exports. */
  ghost predicate ImportsTell(pieces: seq<Piece>, index: Index) {
    && multiset(Concat(PathIn, pieces)) == multiset(index.Keys)
    && forall i :: 0 <= i < |pieces| ==>
         && pieces[i].Import? && pieces[i].path in index
         && Encloses(pieces[i].items, index[pieces[i].path]) && Arranged(pieces[i].items)
  }

  /** One export line for every export of the kind and no other. */
  ghost predicate ExportsTell(pieces: seq<Piece>, index: Index, kind: Kind) {
    forall piece :: multiset(pieces)[piece] == if Stands(index, kind, piece) then 1 else 0
  }

  /** A heading stands where there is something under it. */
  function Section(heading: string, pieces: seq<Piece>): seq<Piece> {
    if pieces == [] then [] else [Comment(heading)] + pieces
  }

  /** The two comment lines, the imports, the values and the types of the index, in this order. */
  ghost predicate Tells(told: Told, index: Index) {
    exists imports, values, types ::
      && told == Told([Comment("/* eslint import/order: 0 sort-imports: 0 */"),
                       Comment("// Auto-generated index file - Do not edit")]
                      + imports + Section("// Value exports", values) + Section("// Type exports", types), None)
      && ImportsTell(imports, index)
      && ExportsTell(values, index, ValueKind) && ExportsTell(types, index, TypeKind)
  }

  // ------------------------------------------------------------ statement by statement

  function PiecesIn(text: string): seq<Piece> { Read(NOTHING, text).pieces }

  /** A text that says something and leaves no import statement open. */
  predicate Whole(text: string) { Read(NOTHING, text).open.None? && PiecesIn(text) != [] }

  predicate AllWhole(texts: seq<string>) {
    forall i :: 0 <= i < |texts| ==> Whole(texts[i])
  }

  lemma {:induction false} ItemsRead(told: Told, items: seq<string>, comma: string)
    requires told.open.Some? && items != [] && (comma == "" || comma == ",")
    requires forall i :: 0 <= i < |items| ==> Tame(items[i])
    ensures Read(told, "  " + Join(items, ",\n  ") + comma) == told.(open := Some(told.open.value + items))
  {
    hide Read, ReadLine;
    var front, last := items[..|items| - 1], items[|items| - 1];
    if front != [] {
      ItemsRead(told, front, ",");
      assert "  " + Join(items, ",\n  ") + comma
             == "  " + Join(front, ",\n  ") + "," + "\n" + ("  " + last + comma);
      ReadOn(told, "  " + Join(front, ",\n  ") + ",", "  " + last + comma);
      assert items == front + [last];
    } else {
      assert items == [last] && told.open.value + [] == told.open.value;
    }
    assert told.open.value + items == told.open.value + front + [last];
    var before := told.(open := Some(told.open.value + front));
    ReadOne(before, "  " + last + comma);
    ItemLine(before, last, comma);
  }

  lemma ItemsTame(exports: seq<Export>)
    requires TameExports(exports)
    ensures forall i :: 0 <= i < |ImportItems(exports)| ==> Tame(ImportItems(exports)[i])
    ensures |ImportItems(exports)| == |exports|
  {
    hide ImportItems;
    ImportItemCount(exports);
    forall i | 0 <= i < |ImportItems(exports)|
      ensures Tame(ImportItems(exports)[i])
    {
      assert ImportItems(exports)[i] in ImportItems(exports);
    }
  }

  lemma ManyImports(items: seq<string>, path: string)
    requires |items| > 1 && '\n' !in path && forall i :: 0 <= i < |items| ==> Tame(items[i])
    ensures Read(NOTHING, "import {" + "\n" + ("  " + Join(items, ",\n  ") + "\n" + ("} from './" + path + ".js';")))
            == Told([Import(items, path)], None)
  {
    hide Join, Read, ReadLine;
    var body, closing := "  " + Join(items, ",\n  "), "} from './" + path + ".js';";
    ReadOn(NOTHING, "import {", body + "\n" + closing);
    ReadOne(NOTHING, "import {");
    OpeningLine(NOTHING);
    var begun := NOTHING.(open := Some([]));
    ReadOn(begun, body, closing);
    ItemsRead(begun, items, "");
    assert body + "" == body && [] + items == items;
    var filled := NOTHING.(open := Some(items));
    ReadOne(filled, closing);
    CloseImport(filled, path);
  }

  lemma ImportTextIs(path: string, exports: seq<Export>)
    requires exports != []
    ensures var items := ImportItems(exports);
            ImportText(path, exports) ==
            if |items| > 1 then
              "import {" + "\n" + ("  " + Join(items, ",\n  ") + "\n" + ("} from './" + path + ".js';"))
            else if |items| == 1 then "import {" + items[0] + "} from './" + path + ".js';"
            else "import {" + "" + "} from './" + path + ".js';"
  {
    hide ImportItems;
  }

  lemma ImportReads(path: string, exports: seq<Export>)
    requires exports != [] && TameExports(exports) && '\n' !in path
    ensures Read(NOTHING, ImportText(path, exports)) == Told([Import(ImportItems(exports), path)], None)
  {
    hide ImportText, ImportItems, Read, ReadLine;
    var items := ImportItems(exports);
    ItemsTame(exports);
    ImportTextIs(path, exports);
    if |items| > 1 {
      ManyImports(items, path);
    } else {
      assert items == [items[0]];
      ReadOne(NOTHING, "import {" + items[0] + "} from './" + path + ".js';");
      LoneImport(NOTHING, items[0], path);
    }
  }

  lemma ExportReads(exp: Export)
    requires TameName(exp.name)
    ensures Read(NOTHING, ExportLine(exp)) == Told([Shown(exp)], None)
  {
    hide Read, ReadLine;
    ReadOne(NOTHING, ExportLine(exp));
    TypeLine(NOTHING, exp.name);
    DefaultLine(NOTHING, exp.name);
    ValueLine(NOTHING, exp.name);
  }

  // --------------------------------------------------------------- list by list

  function Adding(told: Told, pieces: seq<Piece>): Told {
    Told(told.pieces + pieces, None)
  }

  lemma Nothing(told: Told)
    requires told.open.None?
    ensures Read(told, "") == told
  {
    hide Read, ReadLine;
    ReadOne(told, "");
    BlankLine(told);
  }

  lemma {:induction false} JoinReads(told: Told, texts: seq<string>)
    requires told.open.None? && AllWhole(texts)
    ensures Read(told, Join(texts, "\n")) == Adding(told, Concat(PiecesIn, texts))
  {
    hide Read, Whole, PiecesIn;
    if texts == [] {
      Nothing(told);
    } else {
      var front, last := texts[..|texts| - 1], texts[|texts| - 1];
      WholeIs(last);
      if front == [] {
        assert texts == [last];
        ConcatOne(PiecesIn, last);
        ReadAdds(told, last);
      } else {
        JoinReads(told, front);
        ReadOn(told, Join(front, "\n"), last);
        ReadAdds(Adding(told, Concat(PiecesIn, front)), last);
        assert told.pieces + (Concat(PiecesIn, front) + PiecesIn(last))
               == told.pieces + Concat(PiecesIn, front) + PiecesIn(last);
      }
    }
  }

  lemma WholeIs(text: string)
    requires Whole(text)
    ensures Read(NOTHING, text) == Told(PiecesIn(text), None)
  {
    hide Read;
  }

  /** A heading, a list under it and what follows. */
  lemma SectionReads(told: Told, heading: string, texts: seq<string>, rest: string)
    requires told.open.None? && AllWhole(texts) && Starts(heading, "/") && '\n' !in heading
    ensures Read(told, heading + "\n" + (Join(texts, "\n") + "\n" + rest))
            == Read(Adding(told, [Comment(heading)] + Concat(PiecesIn, texts)), rest)
  {
    hide Read, ReadLine, Join, Whole, Concat, Starts;
    ReadOn(told, heading, Join(texts, "\n") + "\n" + rest);
    ReadOne(told, heading);
    CommentLine(told, heading);
    var under := Adding(told, [Comment(heading)]);
    ReadOn(under, Join(texts, "\n"), rest);
    JoinReads(under, texts);
    assert under.pieces + Concat(PiecesIn, texts) == told.pieces + ([Comment(heading)] + Concat(PiecesIn, texts));
  }

  lemma BlankReads(told: Told, rest: string)
    requires told.open.None?
    ensures Read(told, "" + "\n" + rest) == Read(told, rest)
  {
    hide Read;
    ReadOn(told, "", rest);
    Nothing(told);
  }

  function TypesText(types: seq<string>): string {
    if types == [] then "" else "// Type exports" + "\n" + (Join(types, "\n") + "\n" + "")
  }

  function ValuesText(values: seq<string>, rest: string): string {
    if values == [] then rest else "// Value exports" + "\n" + (Join(values, "\n") + "\n" + ("" + "\n" + rest))
  }

  lemma ContentParts(s: Statements)
    ensures ContentText(s)
            == HeaderText("" + "\n" + (Join(s.imports, "\n") + "\n"
                                       + ("" + "\n" + ValuesText(s.values, TypesText(s.types)))))
  {
    hide Join, FirstLine, SecondLine, TypesText, ValuesText;
    var types := if s.types == [] then "" else "// Type exports\n" + Join(s.types, "\n") + "\n";
    var values := if s.values == [] then "" else "// Value exports\n" + Join(s.values, "\n") + "\n\n";
    TypesTextIs(s.types);
    ValuesTextIs(s.values, types);
    Regrouped(FirstLine(), SecondLine(), Join(s.imports, "\n"), values, types);
  }

  lemma TypesTextIs(types: seq<string>)
    ensures TypesText(types) == if types == [] then "" else "// Type exports\n" + Join(types, "\n") + "\n"
  {
    hide Join;
    assert "// Type exports" + "\n" == "// Type exports\n";
  }

  lemma ValuesTextIs(values: seq<string>, rest: string)
    ensures ValuesText(values, rest)
            == (if values == [] then "" else "// Value exports\n" + Join(values, "\n") + "\n\n") + rest
  {
    hide Join;
    assert "// Value exports" + "\n" == "// Value exports\n";
    BlankBetween(Join(values, "\n"), rest);
  }

  lemma BlankBetween(a: string, b: string)
    ensures a + "\n\n" + b == a + "\n" + ("" + "\n" + b)
  {
  }

  lemma Regrouped(a: string, b: string, c: string, d: string, e: string)
    ensures a + "\n" + b + "\n\n" + c + "\n\n" + d + e
            == a + "\n" + (b + "\n" + ("" + "\n" + (c + "\n" + ("" + "\n" + (d + e)))))
  {
    var tail := "" + "\n" + (d + e);
    BlankBetween(a + "\n" + b + "\n\n" + c, d + e);
    assert a + "\n" + b + "\n\n" + c + "\n" + tail == a + "\n" + b + "\n\n" + (c + "\n" + tail);
    BlankBetween(a + "\n" + b, c + "\n" + tail);
  }

  lemma FirstIsComment()
    ensures '\n' !in FirstLine() && Starts(FirstLine(), "/")
  {
    assert FirstLine()[0] == '/';
  }

  lemma SecondIsComment()
    ensures '\n' !in SecondLine() && Starts(SecondLine(), "/")
  {
    assert SecondLine()[0] == '/';
  }

  function HeaderText(rest: string): string { FirstLine() + "\n" + (SecondLine() + "\n" + rest) }

  function Titled(heading: string, texts: seq<string>): seq<Piece> {
    if texts == [] then [] else [Comment(heading)] + Concat(PiecesIn, texts)
  }

  lemma TitledIs(heading: string, texts: seq<string>)
    requires AllWhole(texts)
    ensures Titled(heading, texts) == Section(heading, Concat(PiecesIn, texts))
  {
    hide PiecesIn;
    if texts != [] {
      assert Whole(texts[|texts| - 1]);
    }
  }

  lemma TypesRead(told: Told, types: seq<string>)
    requires told.open.None? && AllWhole(types)
    ensures Read(told, TypesText(types)) == Adding(told, Titled("// Type exports", types))
  {
    hide Read, AllWhole, Concat;
    if types == [] {
      Nothing(told);
    } else {
      SectionReads(told, "// Type exports", types, "");
      Nothing(Adding(told, Titled("// Type exports", types)));
    }
  }

  lemma ValuesRead(told: Told, values: seq<string>, rest: string)
    requires told.open.None? && AllWhole(values)
    ensures Read(told, ValuesText(values, rest)) == Read(Adding(told, Titled("// Value exports", values)), rest)
  {
    hide Read, AllWhole, Concat;
    if values == [] {
      assert Adding(told, []) == told;
    } else {
      SectionReads(told, "// Value exports", values, "" + "\n" + rest);
      BlankReads(Adding(told, Titled("// Value exports", values)), rest);
    }
  }

  lemma HeaderReads(rest: string)
    ensures Read(NOTHING, HeaderText(rest)) == Read(Told([Comment(FirstLine()), Comment(SecondLine())], None), rest)
  {
    hide Read, ReadLine, Starts, FirstLine, SecondLine;
    FirstIsComment();
    SecondIsComment();
    ReadOn(NOTHING, FirstLine(), SecondLine() + "\n" + rest);
    ReadOne(NOTHING, FirstLine());
    CommentLine(NOTHING, FirstLine());
    var told := Told([Comment(FirstLine())], None);
    ReadOn(told, SecondLine(), rest);
    ReadOne(told, SecondLine());
    CommentLine(told, SecondLine());
    assert [] + told.pieces == told.pieces;
    assert [Comment(FirstLine())] + [Comment(SecondLine())] == [Comment(FirstLine()), Comment(SecondLine())];
  }

  /** The content says what its statements say. */
  lemma ContentReads(s: Statements)
    requires AllWhole(s.imports) && AllWhole(s.values) && AllWhole(s.types)
    ensures Read(NOTHING, ContentText(s))
            == Told([Comment(FirstLine()), Comment(SecondLine())] + Concat(PiecesIn, s.imports)
                    + Titled("// Value exports", s.values) + Titled("// Type exports", s.types), None)
  {
    hide Read, AllWhole, ContentText, ValuesText, TypesText, HeaderText, Concat, Join, Titled, FirstLine, SecondLine;
    ContentParts(s);
    var types := TypesText(s.types);
    var values := ValuesText(s.values, types);
    HeaderReads("" + "\n" + (Join(s.imports, "\n") + "\n" + ("" + "\n" + values)));
    var begun := Told([Comment(FirstLine()), Comment(SecondLine())], None);
    BlankReads(begun, Join(s.imports, "\n") + "\n" + ("" + "\n" + values));
    ReadOn(begun, Join(s.imports, "\n"), "" + "\n" + values);
    JoinReads(begun, s.imports);
    var imported := Adding(begun, Concat(PiecesIn, s.imports));
    BlankReads(imported, values);
    ValuesRead(imported, s.values, types);
    TypesRead(Adding(imported, Titled("// Value exports", s.values)), s.types);
  }

  // ---------------------------------------------------------------- the whole index

  /** What the import statement of a file says. */
  function ImportOf(index: Index): string -> seq<Piece> {
    (path: string) => if path in index then [Import(ImportItems(index[path]), path)] else []
  }

  /** What the line of an export of the kind says. */
  function ShownOf(kind: Kind): Export -> seq<Piece> {
    (exp: Export) => if exp.kind == kind then [Shown(exp)] else []
  }

  predicate Among(paths: seq<string>, index: Index) {
    forall i :: 0 <= i < |paths| ==> paths[i] in index
  }

  lemma FileRead(index: Index, path: string)
    requires TameIndex(index) && path in index
    ensures var texts := StatementsOf(index)(path);
            AllWhole(texts) && Concat(PiecesIn, texts) == ImportOf(index)(path)
  {
    hide Read, ImportText, ImportItems, TameExports;
    ImportReads(path, index[path]);
    ConcatOne(PiecesIn, ImportText(path, index[path]));
    hide Concat;
  }

  lemma {:induction false} FilesRead(index: Index, paths: seq<string>)
    requires TameIndex(index) && Among(paths, index)
    ensures var texts := Concat(StatementsOf(index), paths);
            AllWhole(texts) && Concat(PiecesIn, texts) == Concat(ImportOf(index), paths)
  {
    hide PiecesIn, StatementsOf, ImportOf, Whole, TameIndex;
    if paths != [] {
      var front, last := paths[..|paths| - 1], paths[|paths| - 1];
      FilesRead(index, front);
      FileRead(index, last);
      ConcatSplit(PiecesIn, Concat(StatementsOf(index), front), StatementsOf(index)(last));
    }
  }

  lemma LineRead(kind: Kind, exp: Export)
    requires TameName(exp.name)
    ensures AllWhole(LinesOf(kind)(exp)) && Concat(PiecesIn, LinesOf(kind)(exp)) == ShownOf(kind)(exp)
  {
    hide Read, ExportLine, TameName, Shown;
    ExportReads(exp);
    ConcatOne(PiecesIn, ExportLine(exp));
    ConcatNone(PiecesIn);
    hide Concat;
  }

  lemma {:induction false} ListRead(kind: Kind, exports: seq<Export>)
    requires TameExports(exports)
    ensures var texts := Concat(LinesOf(kind), exports);
            AllWhole(texts) && Concat(PiecesIn, texts) == Concat(ShownOf(kind), exports)
  {
    hide PiecesIn, LinesOf, ShownOf, Whole, TameName;
    if exports != [] {
      var front, last := exports[..|exports| - 1], exports[|exports| - 1];
      ListRead(kind, front);
      LineRead(kind, last);
      ConcatSplit(PiecesIn, Concat(LinesOf(kind), front), LinesOf(kind)(last));
    }
  }

  lemma {:induction false} ListsTame(index: Index, paths: seq<string>)
    requires TameIndex(index)
    ensures TameExports(Concat(ListOf(index), paths))
  {
    hide TameName;
    if paths != [] {
      ListsTame(index, paths[..|paths| - 1]);
    }
  }

  lemma SortedReads(texts: seq<string>, pieces: seq<Piece>)
    requires AllWhole(texts) && Concat(PiecesIn, texts) == pieces
    ensures AllWhole(Sort(Before, texts))
    ensures multiset(Concat(PiecesIn, Sort(Before, texts))) == multiset(pieces)
  {
    hide Whole, Sort, Concat, PiecesIn;
    SortContents(Before, texts);
    ConcatForgets(PiecesIn, Sort(Before, texts), texts);
    forall i | 0 <= i < |Sort(Before, texts)|
      ensures Whole(Sort(Before, texts)[i])
    {
      assert Sort(Before, texts)[i] in texts;
    }
  }

  /** Reading the content of an index gives its imports and its exports, in the order that the sorts left them in. */
  lemma StatementsRead(index: Index, paths: seq<string>)
    returns (imports: seq<Piece>, values: seq<Piece>, types: seq<Piece>)
    requires TameIndex(index) && Among(paths, index)
    ensures var exports := Concat(ListOf(index), paths);
            && Read(NOTHING, ContentText(StatementsFor(index, paths)))
               == Told([Comment(FirstLine()), Comment(SecondLine())] + imports
                       + Section("// Value exports", values) + Section("// Type exports", types), None)
            && multiset(imports) == multiset(Concat(ImportOf(index), paths))
            && multiset(values) == multiset(Concat(ShownOf(ValueKind), exports))
            && multiset(types) == multiset(Concat(ShownOf(TypeKind), exports))
  {
    hide ContentText, Read, Concat, Sort, AllWhole, TameIndex, TameExports, Before, ImportOf, ShownOf, Among, Section,
      Titled, FirstLine, SecondLine;
    var s, exports := StatementsFor(index, paths), Concat(ListOf(index), paths);
    imports, values := Concat(PiecesIn, s.imports), Concat(PiecesIn, s.values);
    types := Concat(PiecesIn, s.types);
    FilesRead(index, paths);
    ListsTame(index, paths);
    ListRead(ValueKind, exports);
    ListRead(TypeKind, exports);
    SortedReads(Concat(StatementsOf(index), paths), Concat(ImportOf(index), paths));
    SortedReads(Concat(LinesOf(ValueKind), exports), Concat(ShownOf(ValueKind), exports));
    SortedReads(Concat(LinesOf(TypeKind), exports), Concat(ShownOf(TypeKind), exports));
    ContentReads(s);
    TitledIs("// Value exports", s.values);
    TitledIs("// Type exports", s.types);
  }

  // ------------------------------------------------------- each file and each export once

  lemma {:induction false} PathsOfImports(index: Index, paths: seq<string>)
    requires Among(paths, index)
    ensures Concat(PathIn, Concat(ImportOf(index), paths)) == paths
    ensures forall piece :: piece in Concat(ImportOf(index), paths) ==>
              piece.Import? && piece.path in index && piece.items == ImportItems(index[piece.path])
  {
    hide Concat, ImportItems, PathIn;
    ConcatNone(ImportOf(index));
    ConcatNone(PathIn);
    if paths != [] {
      var front, last := paths[..|paths| - 1], paths[|paths| - 1];
      assert paths == front + [last];
      PathsOfImports(index, front);
      ImportOfOne(index, last);
      ConcatSplit(ImportOf(index), front, [last]);
      ConcatSplit(PathIn, Concat(ImportOf(index), front), Concat(ImportOf(index), [last]));
    }
  }

  lemma ImportOfOne(index: Index, path: string)
    requires path in index
    ensures Concat(ImportOf(index), [path]) == [Import(ImportItems(index[path]), path)]
    ensures Concat(PathIn, Concat(ImportOf(index), [path])) == [path]
  {
    hide Concat, ImportItems;
    ConcatOne(ImportOf(index), path);
    ConcatOne(PathIn, Import(ImportItems(index[path]), path));
  }

  lemma ItemsEnclosed(exports: seq<Export>)
    requires TameExports(exports)
    ensures Encloses(ImportItems(exports), exports) && Arranged(ImportItems(exports))
  {
    hide ImportItems;
    ImportItemCount(exports);
    ItemsArranged(exports);
  }

  lemma TypeItem(exp: Export)
    requires TameName(exp.name)
    ensures Starts(ImportItem(exp), "type ") <==> exp.kind == TypeKind
  {
    assert |exp.name| >= 5 ==> exp.name[..5][4] == exp.name[4];
  }

  lemma OfKind(kind: Kind, exports: seq<Export>)
    requires TameExports(exports)
    ensures var sorted := Sort(Before, Concat(Only(kind), exports));
            && (forall i :: 0 <= i < |sorted| ==> (Starts(sorted[i], "type ") <==> kind == TypeKind))
            && SortedBy(Before, sorted)
  {
    hide Sort, Before, Concat, ImportItem, TameName, Starts;
    var items := Concat(Only(kind), exports);
    BeforeIsTotal();
    SortSorted(Before, items);
    SortContents(Before, items);
    forall i | 0 <= i < |items|
      ensures Starts(Sort(Before, items)[i], "type ") <==> kind == TypeKind
    {
      var item := Sort(Before, items)[i];
      assert item in items;
      OnlyContains(kind, exports, item);
      var k :| 0 <= k < |exports| && exports[k].kind == kind && ImportItem(exports[k]) == item;
      TypeItem(exports[k]);
    }
  }

  lemma ItemsArranged(exports: seq<Export>)
    requires TameExports(exports)
    ensures Arranged(ImportItems(exports))
  {
    OfKind(ValueKind, exports);
    OfKind(TypeKind, exports);
    hide Sort, Before, Concat, Starts, TameExports;
  }

  /** The imports read from the text name every file once, with its items. */
  lemma ImportsTold(index: Index, paths: seq<string>, told: seq<Piece>)
    requires TameIndex(index) && Lists(index, paths)
    requires multiset(told) == multiset(Concat(ImportOf(index), paths))
    ensures ImportsTell(told, index)
  {
    hide Concat, Encloses, Arranged, ImportItems, ImportOf;
    ListedAmong(index, paths);
    PathsOfImports(index, paths);
    ConcatForgets(PathIn, told, Concat(ImportOf(index), paths));
    SameElements(told, Concat(ImportOf(index), paths));
    forall i | 0 <= i < |told|
      ensures told[i].Import? && told[i].path in index
      ensures Encloses(told[i].items, index[told[i].path]) && Arranged(told[i].items)
    {
      assert told[i] in told;
      ItemsEnclosed(index[told[i].path]);
    }
  }

  lemma ListedAmong(index: Index, paths: seq<string>)
    requires Lists(index, paths)
    ensures Among(paths, index)
    ensures forall path :: path in paths <==> path in index
    ensures forall path :: multiset(paths)[path] <= 1
  {
    forall path
      ensures path in paths <==> path in index
    {
      assert path in paths <==> path in multiset(paths);
    }
    assert forall i :: 0 <= i < |paths| ==> paths[i] in paths;
  }

  ghost predicate StandsIn(exports: seq<Export>, kind: Kind, piece: Piece) {
    exists i :: 0 <= i < |exports| && exports[i].kind == kind && Shown(exports[i]) == piece
  }

  ghost predicate NamesOnce(exports: seq<Export>) {
    forall i, j :: 0 <= i < j < |exports| ==> exports[i].name != exports[j].name
  }

  /** Among different names every export is counted once. */
  lemma {:induction false} CountedOnce(exports: seq<Export>, kind: Kind, piece: Piece)
    requires NamesOnce(exports)
    ensures multiset(Concat(ShownOf(kind), exports))[piece] == if StandsIn(exports, kind, piece) then 1 else 0
  {
    if exports != [] {
      hide NamesOnce, StandsIn;
      var front, last := exports[..|exports| - 1], exports[|exports| - 1];
      assert exports == front + [last];
      StandsInMore(front, last, kind, piece);
      CountedOnce(front, kind, piece);
    } else {
      assert !StandsIn(exports, kind, piece);
    }
  }

  lemma StandsInMore(front: seq<Export>, last: Export, kind: Kind, piece: Piece)
    requires NamesOnce(front + [last])
    ensures var here := last.kind == kind && Shown(last) == piece;
            && NamesOnce(front)
            && (StandsIn(front + [last], kind, piece) <==> StandsIn(front, kind, piece) || here)
            && !(StandsIn(front, kind, piece) && here)
  {
    var all := front + [last];
    assert all[|front|] == last;
    assert forall i :: 0 <= i < |front| ==> all[i] == front[i];
  }

  lemma IndexNamesOnce(lt: Order, entries: seq<Entry>, index: Index, path: string)
    requires TotalOrder(lt) && IsIndex(lt, entries, index) && path in index
    ensures NamesOnce(index[path])
  {
    forall i, j | 0 <= i < j < |index[path]|
      ensures index[path][i].name != index[path][j].name
    {
      if index[path][i].name == index[path][j].name {
        ImportedOnce(lt, entries, index, index[path][i].name, path, i, path, j);
      }
    }
  }

  /** Some of these files exports it. */
  ghost predicate StandsAmong(index: Index, paths: seq<string>, kind: Kind, piece: Piece) {
    exists path :: path in paths && path in index && StandsIn(index[path], kind, piece)
  }

  lemma OtherFile(lt: Order, entries: seq<Entry>, index: Index, p: string, q: string, kind: Kind, piece: Piece)
    requires TotalOrder(lt) && IsIndex(lt, entries, index) && p in index && q in index
    requires StandsIn(index[p], kind, piece) && StandsIn(index[q], kind, piece)
    ensures p == q
  {
    var i :| 0 <= i < |index[p]| && index[p][i].kind == kind && Shown(index[p][i]) == piece;
    var j :| 0 <= j < |index[q]| && index[q][j].kind == kind && Shown(index[q][j]) == piece;
    ImportedOnce(lt, entries, index, piece.name, p, i, q, j);
  }

  lemma {:induction false} CountedAmong(lt: Order, entries: seq<Entry>, index: Index, paths: seq<string>, kind: Kind,
                                        piece: Piece)
    requires TotalOrder(lt) && IsIndex(lt, entries, index) && Among(paths, index)
    requires forall path :: multiset(paths)[path] <= 1
    ensures multiset(Concat(ShownOf(kind), Concat(ListOf(index), paths)))[piece]
            == if StandsAmong(index, paths, kind, piece) then 1 else 0
  {
    hide Concat, IsIndex, TotalOrder, Shown, ShownOf, StandsAmong, StandsIn, NamesOnce;
    if paths == [] {
      ConcatNone(ListOf(index));
      ConcatNone(ShownOf(kind));
      AmongNone(index, kind, piece);
    } else {
      var front, last := paths[..|paths| - 1], paths[|paths| - 1];
      assert paths == front + [last];
      WithoutLast(paths);
      assert forall path :: multiset(front)[path] <= 1;
      CountedAmong(lt, entries, index, front, kind, piece);
      IndexNamesOnce(lt, entries, index, last);
      CountedOnce(index[last], kind, piece);
      Visit(index, front, last);
      ConcatSplit(ShownOf(kind), Concat(ListOf(index), front), index[last]);
      assert last !in multiset(front);
      AmongMore(lt, entries, index, front, last, kind, piece);
    }
  }

  lemma AmongNone(index: Index, kind: Kind, piece: Piece)
    ensures !StandsAmong(index, [], kind, piece)
  {
  }

  lemma AmongMore(lt: Order, entries: seq<Entry>, index: Index, front: seq<string>, last: string, kind: Kind,
                  piece: Piece)
    requires TotalOrder(lt) && IsIndex(lt, entries, index) && last in index && last !in front
    ensures StandsAmong(index, front + [last], kind, piece)
            <==> StandsAmong(index, front, kind, piece) || StandsIn(index[last], kind, piece)
    ensures !(StandsAmong(index, front, kind, piece) && StandsIn(index[last], kind, piece))
  {
    hide IsIndex, TotalOrder, StandsIn;
    if StandsIn(index[last], kind, piece) {
      assert last in front + [last];
      forall path | path in front && path in index
        ensures !StandsIn(index[path], kind, piece)
      {
        if StandsIn(index[path], kind, piece) {
          OtherFile(lt, entries, index, path, last, kind, piece);
        }
      }
    }
  }

  lemma StandsIff(index: Index, paths: seq<string>, kind: Kind, piece: Piece)
    requires forall path :: path in paths <==> path in index
    ensures StandsAmong(index, paths, kind, piece) <==> Stands(index, kind, piece)
  {
    if StandsAmong(index, paths, kind, piece) {
      var path :| path in paths && path in index && StandsIn(index[path], kind, piece);
      var i :| 0 <= i < |index[path]| && index[path][i].kind == kind && Shown(index[path][i]) == piece;
      assert At(index, path, i);
    }
    if Stands(index, kind, piece) {
      var path, i :| At(index, path, i) && index[path][i].kind == kind && Shown(index[path][i]) == piece;
      assert StandsIn(index[path], kind, piece);
    }
  }

  lemma ExportsTold(lt: Order, entries: seq<Entry>, index: Index, paths: seq<string>, kind: Kind, told: seq<Piece>)
    requires TotalOrder(lt) && IsIndex(lt, entries, index) && Lists(index, paths)
    requires multiset(told) == multiset(Concat(ShownOf(kind), Concat(ListOf(index), paths)))
    ensures ExportsTell(told, index, kind)
  {
    hide TotalOrder, IsIndex, Lists, Concat, ShownOf, Stands, StandsAmong, Among;
    ListedAmong(index, paths);
    forall piece
      ensures multiset(told)[piece] == if Stands(index, kind, piece) then 1 else 0
    {
      CountedAmong(lt, entries, index, paths, kind, piece);
      StandsIff(index, paths, kind, piece);
    }
  }

  lemma IndexTame(lt: Order, entries: seq<Entry>, index: Index)
    requires IsIndex(lt, entries, index) && TameEntries(entries)
    ensures TameIndex(index)
  {
    hide TameName;
    forall path | path in index
      ensures '\n' !in path && index[path] != [] && TameExports(index[path])
    {
      forall i | 0 <= i < |index[path]|
        ensures Offers(entries, Item(path, index[path][i]))
      {
        assert index[path][i] in index[path];
        assert Kept(lt, entries, Item(path, index[path][i]));
      }
      assert Offers(entries, Item(path, index[path][0]));
    }
  }

  /** Read back line by line, the content of an index file tells exactly what its index holds. */
  lemma IndexFileReads(lt: Order, entries: seq<Entry>, index: Index, paths: seq<string>, content: string)
    requires TotalOrder(lt) && TameEntries(entries) && Spells(lt, entries, index, paths, content)
    ensures IsIndex(lt, entries, index) && Tells(Read(NOTHING, content), index)
  {
    hide TotalOrder, TameEntries, IsIndex, Lists, ContentText, StatementsFor, Read, Among, TameIndex, Concat,
      ImportsTell, ExportsTell, ImportOf, ShownOf, Section, Tells, FirstLine, SecondLine;
    IndexTame(lt, entries, index);
    ListedAmong(index, paths);
    var imports, values, types := StatementsRead(index, paths);
    ImportsTold(index, paths, imports);
    ExportsTold(lt, entries, index, paths, ValueKind, values);
    ExportsTold(lt, entries, index, paths, TypeKind, types);
    TellsIs(Read(NOTHING, content), index, imports, values, types);
  }

  lemma TellsIs(told: Told, index: Index, imports: seq<Piece>, values: seq<Piece>, types: seq<Piece>)
    requires told == Told([Comment(FirstLine()), Comment(SecondLine())] + imports
                          + Section("// Value exports", values) + Section("// Type exports", types), None)
    requires ImportsTell(imports, index)
    requires ExportsTell(values, index, ValueKind) && ExportsTell(types, index, TypeKind)
    ensures Tells(told, index)
  {
    hide ImportsTell, ExportsTell, Section;
  }
}
