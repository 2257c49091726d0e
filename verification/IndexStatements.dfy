/** The text that scripts/generateIndex.ts writes for the selected exports. */
module IndexStatements {
  import opened Sequences
  import opened Sorting
  import opened IndexGenerator

  type Index = map<string, seq<Export>>

  // ------------------------------------------------------------ code unit order

  /** The default order of Array.prototype.sort on strings: by code units. */
  function Before(a: string, b: string): bool {
    if b == "" then false
    else if a == "" then true
    else if a[0] != b[0] then a[0] < b[0]
    else Before(a[1..], b[1..])
  }

  lemma {:induction false} BeforeAsymmetric(a: string, b: string)
    ensures Before(a, b) ==> !Before(b, a)
  {
    if a != "" && b != "" {
      BeforeAsymmetric(a[1..], b[1..]);
    }
  }

  lemma {:induction false} BeforeNegativelyTransitive(a: string, b: string, c: string)
    ensures !Before(a, b) && !Before(b, c) ==> !Before(a, c)
  {
    if a != "" && b != "" && c != "" {
      BeforeNegativelyTransitive(a[1..], b[1..], c[1..]);
    }
  }

  lemma {:induction false} BeforeConnected(a: string, b: string)
    ensures a != b ==> Before(a, b) || Before(b, a)
  {
    if a != "" && b != "" {
      BeforeConnected(a[1..], b[1..]);
      assert a == [a[0]] + a[1..] && b == [b[0]] + b[1..];
    }
  }

  lemma BeforeIsTotal()
    ensures TotalOrder(Before)
  {
    forall a, b
      ensures (Before(a, b) ==> !Before(b, a)) && (a != b ==> Before(a, b) || Before(b, a))
    {
      BeforeAsymmetric(a, b);
      BeforeConnected(a, b);
    }
    forall a, b, c
      ensures !Before(a, b) && !Before(b, c) ==> !Before(a, c)
    {
      BeforeNegativelyTransitive(a, b, c);
    }
  }

  /** The first place where two strings differ decides, and a string comes before all that continue it. */
  lemma {:induction false} BeforeByDifference(common: string, a: string, b: string)
    ensures a != "" && b != "" && a[0] != b[0] ==> (Before(common + a, common + b) <==> a[0] < b[0])
    ensures Before(common, common + b) <==> b != ""
  {
    assert common == "" ==> common + a == a && common + b == b;
    if common != "" {
      BeforeByDifference(common[1..], a, b);
      assert (common + a)[1..] == common[1..] + a && (common + b)[1..] == common[1..] + b;
    }
  }

  /** Sorting by code units forgets the order that the strings came in. */
  lemma {:induction false} SortForgets(a: seq<string>, b: seq<string>)
    requires multiset(a) == multiset(b)
    ensures Sort(Before, a) == Sort(Before, b)
  {
    hide Before, Sort;
    BeforeIsTotal();
    SortContents(Before, a);
    SortContents(Before, b);
    SortSorted(Before, a);
    SortSorted(Before, b);
    SortedUnique(Before, Sort(Before, a), Sort(Before, b));
  }

  // ---------------------------------------------------------- one import statement

  function ImportItem(exp: Export): string {
    if exp.kind == TypeKind then "type " + exp.name else exp.name
  }

  function Only(kind: Kind): Export -> seq<string> {
    (exp: Export) => if exp.kind == kind then [ImportItem(exp)] else []
  }

  function ImportItems(exports: seq<Export>): seq<string> {
    Sort(Before, Concat(Only(ValueKind), exports)) + Sort(Before, Concat(Only(TypeKind), exports))
  }

  function Join(items: seq<string>, separator: string): string {
    if items == [] then ""
    else if |items| == 1 then items[0]
    else Join(items[..|items| - 1], separator) + separator + items[|items| - 1]
  }

  function FormatImportItems(items: seq<string>): string {
    if |items| <= 1 then Join(items, ", ") else "\n  " + Join(items, ",\n  ") + "\n"
  }

  function ImportText(path: string, exports: seq<Export>): string {
    if exports == [] then "" else "import {" + FormatImportItems(ImportItems(exports)) + "} from './" + path + ".js';"
  }

  /** The filters, the two sets and their sorts; names of one kind are distinct, so the sets drop none. */
  method GenerateImportStatement(path: string, exports: seq<Export>) returns (text: string)
    requires Distinct(Key, exports)
    ensures text == ImportText(path, exports)
  {
    hide Sort, Before, FormatImportItems;
    var values, types: seq<string> := [], [];
    for n := 0 to |exports|
      invariant values == Concat(Only(ValueKind), exports[..n])
      invariant types == Concat(Only(TypeKind), exports[..n])
    {
      OnlyFresh(exports, n);
      ConcatStep(Only(ValueKind), exports, n);
      ConcatStep(Only(TypeKind), exports, n);
      var item := ImportItem(exports[n]);
      if exports[n].kind == ValueKind && item !in values {
        values := values + [item];
      }
      if exports[n].kind == TypeKind && item !in types {
        types := types + [item];
      }
    }
    assert exports[..|exports|] == exports;
    var allImports := Sort(Before, values) + Sort(Before, types);
    ImportItemCount(exports);
    if |allImports| == 0 {
      return "";
    }
    text := "import {" + FormatImportItems(allImports) + "} from './" + path + ".js';";
  }

  lemma {:induction false} OnlyContains(kind: Kind, exports: seq<Export>, item: string)
    ensures item in Concat(Only(kind), exports)
            <==> exists i :: 0 <= i < |exports| && exports[i].kind == kind && ImportItem(exports[i]) == item
  {
    if exports != [] {
      var front, last := exports[..|exports| - 1], exports[|exports| - 1];
      OnlyContains(kind, front, item);
      assert exports == front + [last];
      hide ImportItem;
    }
  }

  lemma SameItem(a: Export, b: Export)
    ensures a.kind == b.kind && ImportItem(a) == ImportItem(b) <==> a.name == b.name && a.kind == b.kind
  {
    if a.kind == b.kind == TypeKind && ImportItem(a) == ImportItem(b) {
      assert ImportItem(a)[5..] == a.name && ImportItem(b)[5..] == b.name;
    }
  }

  lemma OnlyFresh(exports: seq<Export>, n: nat)
    requires Distinct(Key, exports) && n < |exports|
    ensures ImportItem(exports[n]) !in Concat(Only(exports[n].kind), exports[..n])
  {
    OnlyContains(exports[n].kind, exports[..n], ImportItem(exports[n]));
    forall i | 0 <= i < n
      ensures !(exports[i].kind == exports[n].kind && ImportItem(exports[i]) == ImportItem(exports[n]))
    {
      SameItem(exports[i], exports[n]);
      KeyDetermines(exports[i], exports[n]);
    }
    hide Concat, ImportItem, Key;
  }

  /** Every export is one import item, values first. */
  lemma {:induction false} ImportItemCount(exports: seq<Export>)
    ensures |ImportItems(exports)| == |exports|
    ensures forall item ::
              item in ImportItems(exports) <==> exists i :: 0 <= i < |exports| && ImportItem(exports[i]) == item
  {
    SortContents(Before, Concat(Only(ValueKind), exports));
    SortContents(Before, Concat(Only(TypeKind), exports));
    OnlyCount(exports);
    forall item
      ensures item in ImportItems(exports) <==> exists i :: 0 <= i < |exports| && ImportItem(exports[i]) == item
    {
      OnlyContains(ValueKind, exports, item);
      OnlyContains(TypeKind, exports, item);
    }
    hide Sort, Concat, ImportItem;
  }

  lemma {:induction false} OnlyCount(exports: seq<Export>)
    ensures |Concat(Only(ValueKind), exports)| + |Concat(Only(TypeKind), exports)| == |exports|
  {
    if exports != [] {
      OnlyCount(exports[..|exports| - 1]);
    }
  }

  // --------------------------------------------------------------- export lines

  /** The name under which a module exports: a default export goes by `default`. */
  function ExportedName(exp: Export): string {
    if exp.kind == ValueKind && exp.isDefault then "default" else exp.name
  }

  function ExportLine(exp: Export): string {
    if exp.kind == TypeKind then "export type { " + exp.name + " };"
    else if exp.isDefault then "export { " + exp.name + " as default };"
    else "export { " + exp.name + " };"
  }

  function LinesOf(kind: Kind): Export -> seq<string> {
    (exp: Export) => if exp.kind == kind then [ExportLine(exp)] else []
  }

  /** The lists of all files, in the order of `paths`. */
  function ListOf(index: Index): string -> seq<Export> {
    (path: string) => if path in index then index[path] else []
  }

  /** `paths` lists the files of the index once each. */
  ghost predicate Lists(index: Index, paths: seq<string>) {
    multiset(paths) == multiset(index.Keys)
  }

  function StatementsOf(index: Index): string -> seq<string> {
    (path: string) => if path in index then [ImportText(path, index[path])] else []
  }

  datatype Statements = Statements(imports: seq<string>, values: seq<string>, types: seq<string>)

  /** The sorted statements when the files are visited in the order of `paths`. */
  function StatementsFor(index: Index, paths: seq<string>): Statements {
    var exports := Concat(ListOf(index), paths);
    Statements(Sort(Before, Concat(StatementsOf(index), paths)),
               Sort(Before, Concat(LinesOf(ValueKind), exports)),
               Sort(Before, Concat(LinesOf(TypeKind), exports)))
  }

  /** Visits the files in any order, as a Map may have them. */
  method GenerateStatements(index: Index) returns (statements: Statements, ghost paths: seq<string>)
    requires forall path :: path in index ==> index[path] != [] && Distinct(Key, index[path])
    ensures Lists(index, paths)
    ensures statements == StatementsFor(index, paths)
  {
    hide Sort, Before, ImportText, Concat, StatementsOf, ListOf, LinesOf;
    var imports: seq<string>, exports: seq<Export> := [], [];
    paths := [];
    var todo := index.Keys;
    ConcatNone(StatementsOf(index));
    ConcatNone(ListOf(index));
    while todo != {}
      invariant todo <= index.Keys && multiset(paths) + multiset(todo) == multiset(index.Keys)
      invariant imports == Concat(StatementsOf(index), paths)
      invariant exports == Concat(ListOf(index), paths)
      decreases todo
    {
      var path :| path in todo;
      Visit(index, paths, path);
      var text := GenerateImportStatement(path, index[path]);
      imports := imports + [text];
      exports := exports + index[path];
      paths := paths + [path];
      todo := todo - {path};
    }
    var values, types := ExportLines(exports);
    statements := Statements(Sort(Before, imports), Sort(Before, values), Sort(Before, types));
  }

  lemma Visit(index: Index, paths: seq<string>, path: string)
    requires path in index
    ensures Concat(StatementsOf(index), paths + [path])
            == Concat(StatementsOf(index), paths) + [ImportText(path, index[path])]
    ensures Concat(ListOf(index), paths + [path]) == Concat(ListOf(index), paths) + index[path]
  {
    ConcatSplit(StatementsOf(index), paths, [path]);
    ConcatSplit(ListOf(index), paths, [path]);
    ConcatOne(StatementsOf(index), path);
    ConcatOne(ListOf(index), path);
    hide Concat, ImportText;
  }

  /** The inner loop of `generateExportStatements`. */
  method ExportLines(exports: seq<Export>) returns (values: seq<string>, types: seq<string>)
    ensures values == Concat(LinesOf(ValueKind), exports) && types == Concat(LinesOf(TypeKind), exports)
  {
    values, types := [], [];
    for n := 0 to |exports|
      invariant values == Concat(LinesOf(ValueKind), exports[..n])
      invariant types == Concat(LinesOf(TypeKind), exports[..n])
    {
      ConcatStep(LinesOf(ValueKind), exports, n);
      ConcatStep(LinesOf(TypeKind), exports, n);
      var exp := exports[n];
      if exp.kind == TypeKind {
        types := types + ["export type { " + exp.name + " };"];
      } else {
        values := values + [if exp.isDefault then "export { " + exp.name + " as default };"
                            else "export { " + exp.name + " };"];
      }
    }
    assert exports[..|exports|] == exports;
  }

  lemma IndexListsAreDistinct(lt: Order, entries: seq<Entry>, index: Index)
    requires TotalOrder(lt) && IsIndex(lt, entries, index)
    ensures forall path :: path in index ==> index[path] != [] && Distinct(Key, index[path])
  {
    hide Kept, Key;
    forall path, i, j | path in index && 0 <= i < j < |index[path]|
      ensures Key(index[path][i]) != Key(index[path][j])
    {
      assert lt(index[path][i].name, index[path][j].name);
      KeyDetermines(index[path][i], index[path][j]);
    }
  }

  // ------------------------------------------------------------- consequences

  /** The written statements do not depend on the order in which the files are visited. */
  lemma StatementsForgetOrder(index: Index, a: seq<string>, b: seq<string>)
    requires Lists(index, a) && Lists(index, b)
    ensures StatementsFor(index, a) == StatementsFor(index, b)
  {
    ConcatForgets(StatementsOf(index), a, b);
    ConcatForgets(ListOf(index), a, b);
    hide Sort, Before, Concat, ListOf, StatementsOf;
    var p, q := Concat(ListOf(index), a), Concat(ListOf(index), b);
    ConcatForgets(LinesOf(ValueKind), p, q);
    ConcatForgets(LinesOf(TypeKind), p, q);
    SortForgets(Concat(StatementsOf(index), a), Concat(StatementsOf(index), b));
    SortForgets(Concat(LinesOf(ValueKind), p), Concat(LinesOf(ValueKind), q));
    SortForgets(Concat(LinesOf(TypeKind), p), Concat(LinesOf(TypeKind), q));
  }

  lemma {:induction false} LineWritten(kind: Kind, exports: seq<Export>, line: string)
    ensures line in Concat(LinesOf(kind), exports)
            <==> exists i :: 0 <= i < |exports| && exports[i].kind == kind && ExportLine(exports[i]) == line
  {
    if exports != [] {
      hide ExportLine;
      var front, last := exports[..|exports| - 1], exports[|exports| - 1];
      LineWritten(kind, front, line);
      assert exports == front + [last];
    }
  }

  lemma {:induction false} ListedExports(index: Index, paths: seq<string>, exp: Export)
    ensures exp in Concat(ListOf(index), paths)
            <==> exists path :: path in paths && path in index && exp in index[path]
  {
    if paths != [] {
      var front, last := paths[..|paths| - 1], paths[|paths| - 1];
      ListedExports(index, front, exp);
      assert paths == front + [last];
    }
  }

  ghost predicate Exports(index: Index, exp: Export) {
    exists path :: path in index && exp in index[path]
  }

  /** Some export of the index is written as `line`. */
  ghost predicate Wanted(index: Index, kind: Kind, line: string) {
    exists exp :: Exports(index, exp) && exp.kind == kind && ExportLine(exp) == line
  }

  /** The export lines are sorted, and there is one for exactly each export that some file of the index has. */
  lemma StatementsWritten(index: Index, paths: seq<string>, line: string)
    requires Lists(index, paths)
    ensures var written := StatementsFor(index, paths);
            && SortedBy(Before, written.imports) && SortedBy(Before, written.values) && SortedBy(Before, written.types)
            && (line in written.values <==> Wanted(index, ValueKind, line))
            && (line in written.types <==> Wanted(index, TypeKind, line))
  {
    hide Sort, Before, ExportLine, LinesOf, Concat, StatementsOf, ListOf;
    var exports := Concat(ListOf(index), paths);
    BeforeIsTotal();
    SortSorted(Before, Concat(StatementsOf(index), paths));
    forall kind: Kind
      ensures SortedBy(Before, Sort(Before, Concat(LinesOf(kind), exports)))
      ensures line in Sort(Before, Concat(LinesOf(kind), exports))
              <==> Wanted(index, kind, line)
    {
      SortSorted(Before, Concat(LinesOf(kind), exports));
      SortContents(Before, Concat(LinesOf(kind), exports));
      LineWritten(kind, exports, line);
      forall exp
        ensures exp in exports <==> Exports(index, exp)
      {
        ListedExports(index, paths, exp);
        assert forall path :: path in paths <==> path in multiset(paths);
      }
    }
  }

  ghost predicate At(index: Index, path: string, i: int) {
    path in index && 0 <= i < |index[path]|
  }

  /**
   * Two exports of an index leave the module under one name exactly when both are default exports, or one is and the
   * other is called `default`, a name that the generator's prefix filter never lets into the export map.
   */
  lemma NamesClashIff(lt: Order, entries: seq<Entry>, index: Index, p: string, i: int, q: string, j: int)
    requires TotalOrder(lt) && IsIndex(lt, entries, index)
    requires At(index, p, i) && At(index, q, j) && !(p == q && i == j)
    ensures var a, b := index[p][i], index[q][j];
            ExportedName(a) == ExportedName(b)
            <==> (IsDefault(a) && (IsDefault(b) || b.name == "default")) || (IsDefault(b) && a.name == "default")
  {
    var a, b := index[p][i], index[q][j];
    if a.name == b.name {
      assert Imports(index, a.name, p, i) && Imports(index, a.name, q, j);
      ImportedOnce(lt, entries, index, a.name, p, i, q, j);
      assert false;
    }
  }

  predicate IsDefault(exp: Export) { exp.kind == ValueKind && exp.isDefault }

  /** Values of different names, one to a file, are an index as they stand. */
  lemma LoneValues(lt: Order, entries: seq<Entry>, index: Index)
    requires forall path :: path in index ==> |index[path]| == 1
    requires forall item :: Offers(entries, item) <==> item.path in index && item.exp in index[item.path]
    requires forall item :: Offers(entries, item) ==> item.exp.kind == ValueKind
    requires forall a, b :: Offers(entries, a) && Offers(entries, b) && ItemKey(a) == ItemKey(b) ==> a == b
    ensures IsIndex(lt, entries, index)
  {
    hide Offers, Preferred, OffersValue;
    forall path, exp
      ensures path in index && exp in index[path] <==> Kept(lt, entries, Item(path, exp))
    {
      var item := Item(path, exp);
      assert Offers(entries, item) <==> path in index && exp in index[path];
    }
  }

  /** Two files that each export a default value make an index with two default exports. */
  lemma TwoDefaultsClash(lt: Order) returns (entries: seq<Entry>, index: Index)
    requires TotalOrder(lt)
    ensures Clean(entries) && IsIndex(lt, entries, index)
    ensures At(index, "a", 0) && At(index, "b", 0) && index["a"][0] != index["b"][0]
    ensures ExportedName(index["a"][0]) == ExportedName(index["b"][0])
  {
    var x, y := Export("AxOne", ValueKind, true), Export("AxTwo", ValueKind, true);
    entries, index := [Entry("a", [x]), Entry("b", [y])], map["a" := [x], "b" := [y]];
    KeyDetermines(x, y);
    assert entries[0] in entries && entries[1] in entries;
    assert forall item :: Offers(entries, item) <==> item == Item("a", x) || item == Item("b", y);
    hide Offers, Key;
    LoneValues(lt, entries, index);
  }

  // ----------------------------------------- what an import statement can name

  /** The file exports the name as such, and not only as its default. */
  ghost predicate OffersByName(exports: seq<Export>, exp: Export) {
    exists j :: NamedAt(exports, exp, j)
  }

  ghost predicate NamedAt(exports: seq<Export>, exp: Export, j: int) {
    0 <= j < |exports| && Key(exports[j]) == Key(exp) && !IsDefault(exports[j])
  }

  /** The first export with the key is `exp`, and a later one offers the name as such. */
  ghost predicate NamedLater(exports: seq<Export>, exp: Export) {
    exists i, j :: 0 <= i < j && NamedAt(exports, exp, j) && exports[i] == exp && IsFirst(Key, exports, i)
  }

  /**
   * The generator imports every export by its name.  Its file offers that name unless the export is a default one and
   * the file does not also export it by name further on.
   */
  lemma OffersByNameIff(exports: seq<Export>, exp: Export)
    requires exp in Uniques(exports)
    ensures OffersByName(exports, exp) <==> !IsDefault(exp) || NamedLater(exports, exp)
  {
    assert exports[..|exports|] == exports;
    UniquesAreFirst(exports, |exports|, exp);
    var i :| 0 <= i < |exports| && exports[i] == exp && IsFirst(Key, exports, i);
    if !IsDefault(exp) {
      assert NamedAt(exports, exp, i);
    }
    if j :| NamedAt(exports, exp, j) {
      assert j != i ==> j > i;
    }
  }

  /** The export map as `processFile` fills it from what each file exports. */
  ghost predicate Collected(files: map<string, seq<Export>>, entries: seq<Entry>) {
    forall entry :: entry in entries ==> entry.path in files && entry.exports == Uniques(files[entry.path])
  }

  ghost predicate AllOffered(files: map<string, seq<Export>>, index: Index) {
    forall path, i :: At(index, path, i) ==> path in files && OffersByName(files[path], index[path][i])
  }

  ghost predicate DefaultsNamed(files: map<string, seq<Export>>, index: Index) {
    forall path, i :: At(index, path, i) && IsDefault(index[path][i]) ==>
      path in files && NamedLater(files[path], index[path][i])
  }

  /** Every imported name is offered exactly when each kept default is also exported by name further on. */
  lemma ImportsOfferedIff(lt: Order, files: map<string, seq<Export>>, entries: seq<Entry>, index: Index)
    requires IsIndex(lt, entries, index) && Collected(files, entries)
    ensures AllOffered(files, index) <==> DefaultsNamed(files, index)
  {
    hide OffersByName, NamedLater, IsDefault, IsIndex, Collected;
    forall path, i | At(index, path, i)
      ensures path in files
      ensures OffersByName(files[path], index[path][i])
              <==> !IsDefault(index[path][i]) || NamedLater(files[path], index[path][i])
    {
      KeptIsCollected(lt, files, entries, index, path, i);
      OffersByNameIff(files[path], index[path][i]);
    }
  }

  lemma KeptIsCollected(lt: Order, files: map<string, seq<Export>>, entries: seq<Entry>, index: Index, path: string,
                        i: int)
    requires IsIndex(lt, entries, index) && Collected(files, entries) && At(index, path, i)
    ensures path in files && index[path][i] in Uniques(files[path])
  {
    var exp := index[path][i];
    assert exp in index[path];
    assert Kept(lt, entries, Item(path, exp)) && Offers(entries, Item(path, exp));
  }

  /** One file with nothing but a default export makes an index that imports a name the file does not offer. */
  lemma LoneDefaultDangles(lt: Order) returns (entries: seq<Entry>, index: Index)
    requires TotalOrder(lt)
    ensures var exports := [Export("AxOne", ValueKind, true)];
            && Collected(map["a" := exports], entries) && Clean(entries) && IsIndex(lt, entries, index)
            && At(index, "a", 0) && ImportItem(index["a"][0]) == "AxOne"
            && !OffersByName(exports, index["a"][0])
  {
    var x := Export("AxOne", ValueKind, true);
    entries, index := [Entry("a", [x])], map["a" := [x]];
    assert [x][..0] == [] && Uniques([x]) == [x];
    assert entries[0] in entries;
    assert forall item :: Offers(entries, item) <==> item == Item("a", x);
    LoneValues(lt, entries, index);
  }
}
