/** The export selection of scripts/generateIndex.ts, from the export map to the imports of each file. */
module IndexGenerator {
  import opened Sorting

  datatype Kind = TypeKind | ValueKind

  datatype Export = Export(name: string, kind: Kind, isDefault: bool)

  datatype Entry = Entry(path: string, exports: seq<Export>)

  datatype Item = Item(path: string, exp: Export)

  /** `${kind}:${originalName}`. */
  function Key(exp: Export): string {
    (if exp.kind == TypeKind then "type:" else "value:") + exp.name
  }

  lemma KeyDetermines(a: Export, b: Export)
    ensures Key(a) == Key(b) <==> a.name == b.name && a.kind == b.kind
  {
    if Key(a) == Key(b) {
      assert Key(a)[0] == (if a.kind == TypeKind then 't' else 'v');
      assert Key(b)[0] == (if b.kind == TypeKind then 't' else 'v');
      var n := if a.kind == TypeKind then 5 else 6;
      assert Key(a)[n..] == a.name && Key(b)[n..] == b.name;
    }
  }

  // -------------------------------------------------- first occurrences by key

  ghost predicate IsFirst<T>(key: T -> string, s: seq<T>, i: nat)
    requires i < |s|
  {
    forall k :: 0 <= k < i ==> key(s[k]) != key(s[i])
  }

  /** `x` is the first of its key among the first `n` elements. */
  ghost predicate First<T>(key: T -> string, s: seq<T>, n: nat, x: T)
    requires n <= |s|
  {
    exists i :: 0 <= i < n && s[i] == x && IsFirst(key, s, i)
  }

  lemma {:induction false} FirstStep<T>(key: T -> string, s: seq<T>, n: nat, x: T)
    requires n < |s|
    ensures First(key, s, n + 1, x) <==> First(key, s, n, x) || (x == s[n] && IsFirst(key, s, n))
  {
  }

  lemma {:induction false} FirstUnique<T>(key: T -> string, s: seq<T>, n: nat, x: T, y: T)
    requires n <= |s| && First(key, s, n, x) && First(key, s, n, y) && key(x) == key(y)
    ensures x == y
  {
    var i :| 0 <= i < n && s[i] == x && IsFirst(key, s, i);
    var j :| 0 <= j < n && s[j] == y && IsFirst(key, s, j);
    assert i == j;
  }

  /** Every key that occurs has a first occurrence. */
  lemma {:induction false} FirstExists<T>(key: T -> string, s: seq<T>, n: nat, k: nat) returns (i: nat)
    requires k < n <= |s|
    ensures i <= k && key(s[i]) == key(s[k]) && IsFirst(key, s, i) && First(key, s, n, s[i])
  {
    i := 0;
    while key(s[i]) != key(s[k])
      invariant 0 <= i <= k && forall j :: 0 <= j < i ==> key(s[j]) != key(s[k])
      decreases k - i
    {
      i := i + 1;
    }
  }

  // --------------------------------------------------------- one file's exports

  /** The exports that no earlier export of the same name and kind precedes, in order. */
  function Uniques(exports: seq<Export>): seq<Export> {
    if exports == [] then []
    else
      var front, last := exports[..|exports| - 1], exports[|exports| - 1];
      Uniques(front) + if exists k :: 0 <= k < |front| && Key(front[k]) == Key(last) then [] else [last]
  }

  lemma UniquesStep(exports: seq<Export>, n: nat)
    requires n < |exports|
    ensures Uniques(exports[..n + 1])
            == Uniques(exports[..n]) + if IsFirst(Key, exports, n) then [exports[n]] else []
  {
    var longer := exports[..n + 1];
    assert longer[..n] == exports[..n];
  }

  lemma {:induction false} UniquesAreFirst(exports: seq<Export>, n: nat, exp: Export)
    requires n <= |exports|
    ensures exp in Uniques(exports[..n]) <==> First(Key, exports, n, exp)
    decreases n
  {
    if n > 0 {
      hide Key;
      UniquesAreFirst(exports, n - 1, exp);
      UniquesStep(exports, n - 1);
      FirstStep(Key, exports, n - 1, exp);
    }
  }

  lemma {:induction false} UniquesDistinct(exports: seq<Export>, n: nat)
    requires n <= |exports|
    ensures Distinct(Key, Uniques(exports[..n]))
    decreases n
  {
    hide Key;
    if n > 0 {
      UniquesDistinct(exports, n - 1);
      UniquesStep(exports, n - 1);
      forall exp | exp in Uniques(exports[..n - 1])
        ensures IsFirst(Key, exports, n - 1) ==> Key(exp) != Key(exports[n - 1])
      {
        UniquesAreFirst(exports, n - 1, exp);
      }
    }
  }

  /** The reduce in `processFile`: the first export of each name and kind stays, in its place. */
  method DedupeFile(exports: seq<Export>) returns (unique: seq<Export>)
    ensures unique == Uniques(exports)
    ensures Distinct(Key, unique)
    ensures forall exp :: exp in unique <==> First(Key, exports, |exports|, exp)
  {
    hide Key, Uniques, First, IsFirst;
    unique := [];
    NoUniques();
    assert exports[..0] == [];
    var n := 0;
    while n < |exports|
      invariant 0 <= n <= |exports|
      invariant unique == Uniques(exports[..n])
    {
      var curr := exports[n];
      var seen := false;
      var j := 0;
      while j < |unique|
        invariant 0 <= j <= |unique|
        invariant seen <==> exists k :: 0 <= k < j && Key(unique[k]) == Key(curr)
      {
        KeyDetermines(unique[j], curr);
        if unique[j].name == curr.name && unique[j].kind == curr.kind {
          seen := true;
        }
        j := j + 1;
      }
      forall exp
        ensures exp in unique <==> First(Key, exports, n, exp)
      {
        UniquesAreFirst(exports, n, exp);
      }
      SeenIsLater(exports, unique, n);
      UniquesStep(exports, n);
      if !seen {
        unique := unique + [curr];
      }
      n := n + 1;
    }
    assert exports[..n] == exports;
    UniquesDistinct(exports, n);
    forall exp
      ensures exp in unique <==> First(Key, exports, n, exp)
    {
      UniquesAreFirst(exports, n, exp);
    }
  }

  lemma NoUniques()
    ensures Uniques([]) == []
  {
  }

  lemma {:induction false} SeenIsLater(exports: seq<Export>, unique: seq<Export>, n: nat)
    requires n < |exports| && forall exp :: exp in unique <==> First(Key, exports, n, exp)
    ensures (exists k :: 0 <= k < |unique| && Key(unique[k]) == Key(exports[n])) <==> !IsFirst(Key, exports, n)
  {
    if k :| 0 <= k < |unique| && Key(unique[k]) == Key(exports[n]) {
      assert First(Key, exports, n, unique[k]);
    }
    if !IsFirst(Key, exports, n) {
      var k :| 0 <= k < n && Key(exports[k]) == Key(exports[n]);
      var i := FirstExists(Key, exports, n, k);
      assert exports[i] in unique;
    }
  }

  // ------------------------------------------------------ selection across files

  type Order = (string, string) -> bool

  const CANONICAL_SOURCES: map<string, string> := map[
    "type:AxOptimizedProgram" := "dsp/optimizer",
    "type:AxIField" := "dsp/sig",
    "type:AxFieldValue" := "dsp/types",
    "type:AxAgentUsage" := "dsp/types",
    "type:AxChatLogEntry" := "dsp/types"
  ]

  function SourcePriority(path: string, exp: Export): int {
    if Key(exp) in CANONICAL_SOURCES && CANONICAL_SOURCES[Key(exp)] == path then -100
    else if path == "dsp/types" then -10
    else 0
  }

  function ItemKey(item: Item): string { Key(item.exp) }

  /** The comparator of the flat list; `lt` is the total order `localeCompare` is taken to be. */
  function ItemLess(lt: Order): (Item, Item) -> bool {
    (a: Item, b: Item) =>
      if ItemKey(a) != ItemKey(b) then lt(ItemKey(a), ItemKey(b)) else Preferred(lt, a, b)
  }

  /** Among exports of one key: lower priority number first, then the smaller path. */
  predicate Preferred(lt: Order, a: Item, b: Item) {
    var p, q := SourcePriority(a.path, a.exp), SourcePriority(b.path, b.exp);
    if p != q then p < q else lt(a.path, b.path)
  }

  function Flatten(entries: seq<Entry>): seq<Item> {
    if entries == [] then []
    else
      var last := entries[|entries| - 1];
      Flatten(entries[..|entries| - 1])
      + seq(|last.exports|, i requires 0 <= i < |last.exports| => Item(last.path, last.exports[i]))
  }

  ghost predicate Offers(entries: seq<Entry>, item: Item) {
    exists entry :: entry in entries && entry.path == item.path && item.exp in entry.exports
  }

  /** A `Map` has one entry per path, and each file's exports are deduplicated. */
  ghost predicate Clean(entries: seq<Entry>) {
    && (forall i, j :: 0 <= i < j < |entries| ==> entries[i].path != entries[j].path)
    && (forall i :: 0 <= i < |entries| ==> Distinct(Key, entries[i].exports))
  }

  /** The export that is preferred over every other export of its kind and name. */
  ghost predicate Wins(lt: Order, entries: seq<Entry>, item: Item) {
    && Offers(entries, item)
    && forall other :: Offers(entries, other) && ItemKey(other) == ItemKey(item) && other != item
                       ==> Preferred(lt, item, other)
  }

  /** A winning type stays unless some file exports a value of the same name. */
  ghost predicate Kept(lt: Order, entries: seq<Entry>, item: Item) {
    && Wins(lt, entries, item)
    && (item.exp.kind == TypeKind ==> !OffersValue(entries, item.exp.name))
  }

  ghost predicate OffersValue(entries: seq<Entry>, name: string) {
    exists item :: Offers(entries, item) && item.exp.kind == ValueKind && item.exp.name == name
  }

  /** The reference: each path imports exactly its kept exports, strictly ordered by name. */
  ghost predicate IsIndex(lt: Order, entries: seq<Entry>, imports: map<string, seq<Export>>) {
    && (forall path, exp :: path in imports && exp in imports[path] <==> Kept(lt, entries, Item(path, exp)))
    && forall path :: path in imports ==> imports[path] != [] && StrictByName(lt, imports[path])
  }

  ghost predicate StrictByName(lt: Order, exports: seq<Export>) {
    forall i, j :: 0 <= i < j < |exports| ==> lt(exports[i].name, exports[j].name)
  }

  function ByName(lt: Order): (Export, Export) -> bool {
    (a: Export, b: Export) => lt(a.name, b.name)
  }

  function ByPath(lt: Order): (Entry, Entry) -> bool {
    (a: Entry, b: Entry) => lt(a.path, b.path)
  }

  /** The `used` loop: the first item of each key goes to its file's list. */
  method SelectFirst(flat: seq<Item>) returns (selected: map<string, seq<Export>>)
    ensures forall path, exp ::
              path in selected && exp in selected[path] <==> First(ItemKey, flat, |flat|, Item(path, exp))
    ensures forall path :: path in selected ==> Distinct(Key, selected[path])
  {
    selected := map[];
    var used: set<string> := {};
    for n := 0 to |flat|
      invariant forall key :: key in used <==> exists k :: 0 <= k < n && ItemKey(flat[k]) == key
      invariant forall path, exp ::
                  path in selected && exp in selected[path] <==> First(ItemKey, flat, n, Item(path, exp))
      invariant forall path :: path in selected ==> Distinct(Key, selected[path])
    {
      var Item(path, exp) := flat[n];
      var key := Key(exp);
      forall p, e
        ensures First(ItemKey, flat, n + 1, Item(p, e)) <==>
                First(ItemKey, flat, n, Item(p, e)) || (Item(p, e) == flat[n] && IsFirst(ItemKey, flat, n))
      {
        FirstStep(ItemKey, flat, n, Item(p, e));
      }
      if key !in used {
        used := used + {key};
        var arr := if path in selected then selected[path] else [];
        FreshKey(flat, n, path, arr);
        selected := selected[path := arr + [exp]];
      }
    }
  }

  lemma {:induction false} FreshKey(flat: seq<Item>, n: nat, path: string, arr: seq<Export>)
    requires n < |flat| && IsFirst(ItemKey, flat, n)
    requires Distinct(Key, arr) && forall exp :: exp in arr ==> First(ItemKey, flat, n, Item(path, exp))
    ensures Distinct(Key, arr + [flat[n].exp])
  {
    forall i | 0 <= i < |arr|
      ensures Key(arr[i]) != Key(flat[n].exp)
    {
      assert First(ItemKey, flat, n, Item(path, arr[i]));
    }
  }

  function Filter(exports: seq<Export>, valueNames: set<string>): seq<Export> {
    if exports == [] then []
    else
      var exp := exports[|exports| - 1];
      Filter(exports[..|exports| - 1], valueNames)
      + if exp.kind != TypeKind || exp.name !in valueNames then [exp] else []
  }

  method GenerateIndex(lt: Order, entries: seq<Entry>) returns (imports: map<string, seq<Export>>)
    requires TotalOrder(lt) && Clean(entries)
    ensures IsIndex(lt, entries, imports)
  {
    hide *;
    var flat := Flatten(Sort(ByPath(lt), entries));
    flat := Sort(ItemLess(lt), flat);
    var selected := SelectFirst(flat);
    SelectionIsWinners(lt, entries, flat, selected);
    var sorted := map path | path in selected :: Sort(ByName(lt), selected[path]);
    var valueNames := set path: string, exp: Export |
      path in sorted && exp in sorted[path] && exp.kind == ValueKind :: exp.name;
    var filtered := map path | path in sorted :: Filter(sorted[path], valueNames);
    imports := map path | path in filtered && filtered[path] != [] :: filtered[path];
    forall name
      ensures name in valueNames <==> OffersValue(entries, name)
    {
      SortedValues(lt, entries, selected, sorted, valueNames, name);
    }
    forall path | path in selected
      ensures FileIndex(lt, entries, path, filtered[path])
    {
      FilteredFile(lt, entries, selected, valueNames, path);
    }
    Assemble(lt, entries, selected, filtered, imports);
  }

  // --------------------------------------------------- the proof of the selection

  lemma {:induction false} FlattenOffers(entries: seq<Entry>, item: Item)
    ensures item in Flatten(entries) <==> Offers(entries, item)
  {
    if entries != [] {
      var front, last := entries[..|entries| - 1], entries[|entries| - 1];
      FlattenOffers(front, item);
      assert entries == front + [last];
      var own := seq(|last.exports|, i requires 0 <= i < |last.exports| => Item(last.path, last.exports[i]));
      assert Flatten(entries) == Flatten(front) + own;
      if last.path == item.path && item.exp in last.exports {
        var i :| 0 <= i < |last.exports| && last.exports[i] == item.exp;
        assert own[i] == item;
      }
    }
  }

  lemma SamePathsSameOffers(a: seq<Entry>, b: seq<Entry>, item: Item)
    requires forall entry :: entry in a <==> entry in b
    ensures Offers(a, item) <==> Offers(b, item)
  {
  }

  lemma ItemLessWeak(lt: Order)
    requires TotalOrder(lt)
    ensures WeakOrder(ItemLess(lt))
  {
    forall a, b
      ensures ItemLess(lt)(a, b) ==> !ItemLess(lt)(b, a)
    {
      Asymmetric(lt, ItemKey(a), ItemKey(b));
      Asymmetric(lt, a.path, b.path);
    }
    forall a, b, c
      ensures !ItemLess(lt)(a, b) && !ItemLess(lt)(b, c) ==> !ItemLess(lt)(a, c)
    {
      NegativelyTransitive(lt, ItemKey(a), ItemKey(b), ItemKey(c));
      NegativelyTransitive(lt, a.path, b.path, c.path);
    }
  }

  lemma Asymmetric(lt: Order, x: string, y: string)
    requires TotalOrder(lt)
    ensures !(lt(x, y) && lt(y, x)) && (x != y ==> lt(x, y) || lt(y, x))
  {
  }

  lemma NegativelyTransitive(lt: Order, x: string, y: string, z: string)
    requires TotalOrder(lt)
    ensures !lt(x, y) && !lt(y, z) ==> !lt(x, z) && (x == z ==> x == y)
  {
    Asymmetric(lt, x, y);
    Asymmetric(lt, y, z);
  }

  lemma ByNameWeak(lt: Order)
    requires TotalOrder(lt)
    ensures WeakOrder(ByName(lt))
  {
    forall a, b
      ensures ByName(lt)(a, b) ==> !ByName(lt)(b, a)
    {
      Asymmetric(lt, a.name, b.name);
    }
    forall a, b, c
      ensures !ByName(lt)(a, b) && !ByName(lt)(b, c) ==> !ByName(lt)(a, c)
    {
      NegativelyTransitive(lt, a.name, b.name, c.name);
    }
  }

  /** In the sorted flat list the first item of a key is the preferred one. */
  lemma {:induction false} FirstIsWinner(lt: Order, entries: seq<Entry>, flat: seq<Item>, item: Item)
    requires TotalOrder(lt) && Clean(entries) && SortedBy(ItemLess(lt), flat)
    requires forall other :: other in flat <==> Offers(entries, other)
    ensures First(ItemKey, flat, |flat|, item) <==> Wins(lt, entries, item)
  {
    if Offers(entries, item) {
      var k :| 0 <= k < |flat| && flat[k] == item;
      var i := FirstExists(ItemKey, flat, |flat|, k);
      var winner := flat[i];
      forall other | Offers(entries, other) && ItemKey(other) == ItemKey(winner) && other != winner
        ensures Preferred(lt, winner, other)
      {
        var j :| 0 <= j < |flat| && flat[j] == other;
        assert i < j;
        if other.path == winner.path {
          SamePathSameKey(entries, winner, other);
          assert false;
        }
        NotPreferred(lt, other, winner);
      }
      if Wins(lt, entries, item) && item != winner {
        assert Preferred(lt, item, winner) && Preferred(lt, winner, item);
      }
      if First(ItemKey, flat, |flat|, item) {
        FirstUnique(ItemKey, flat, |flat|, item, winner);
      }
    }
  }

  /** Of two exports of one key in different files one is preferred. */
  lemma NotPreferred(lt: Order, other: Item, winner: Item)
    requires TotalOrder(lt) && ItemKey(other) == ItemKey(winner) && other.path != winner.path
    requires !ItemLess(lt)(other, winner)
    ensures Preferred(lt, winner, other)
  {
    hide SourcePriority;
    assert !Preferred(lt, other, winner);
    var p, q := SourcePriority(other.path, other.exp), SourcePriority(winner.path, winner.exp);
    assert p != q ==> q < p;
    if p == q {
      assert !lt(other.path, winner.path);
    }
  }

  lemma SamePathSameKey(entries: seq<Entry>, a: Item, b: Item)
    requires Clean(entries) && Offers(entries, a) && Offers(entries, b)
    requires ItemKey(a) == ItemKey(b) && a.path == b.path
    ensures a == b
  {
    var i :| 0 <= i < |entries| && entries[i].path == a.path && a.exp in entries[i].exports;
    var j :| 0 <= j < |entries| && entries[j].path == b.path && b.exp in entries[j].exports;
    assert i == j;
    var m :| 0 <= m < |entries[i].exports| && entries[i].exports[m] == a.exp;
    var n :| 0 <= n < |entries[i].exports| && entries[i].exports[n] == b.exp;
    assert m == n;
  }

  ghost predicate Winners(lt: Order, entries: seq<Entry>, selected: map<string, seq<Export>>) {
    && (forall path, exp :: path in selected && exp in selected[path] <==> Wins(lt, entries, Item(path, exp)))
    && forall path :: path in selected ==> Distinct(Key, selected[path])
  }

  lemma {:induction false} SelectionIsWinners(lt: Order, entries: seq<Entry>, flat: seq<Item>,
                                              selected: map<string, seq<Export>>)
    requires TotalOrder(lt) && Clean(entries)
    requires flat == Sort(ItemLess(lt), Flatten(Sort(ByPath(lt), entries)))
    requires forall path, exp ::
               path in selected && exp in selected[path] <==> First(ItemKey, flat, |flat|, Item(path, exp))
    requires forall path :: path in selected ==> Distinct(Key, selected[path])
    ensures Winners(lt, entries, selected)
  {
    hide First, Wins, Sort, Flatten, Offers, ItemLess;
    var byPath := Sort(ByPath(lt), entries);
    SortContents(ByPath(lt), entries);
    SortContents(ItemLess(lt), Flatten(byPath));
    ItemLessWeak(lt);
    SortSorted(ItemLess(lt), Flatten(byPath));
    forall item
      ensures item in flat <==> Offers(entries, item)
    {
      FlattenOffers(byPath, item);
      SamePathsSameOffers(byPath, entries, item);
    }
    forall item
      ensures First(ItemKey, flat, |flat|, item) <==> Wins(lt, entries, item)
    {
      FirstIsWinner(lt, entries, flat, item);
    }
  }

  /** Some file's export of every offered key wins, so a value name survives the selection if any file offers it. */
  lemma {:induction false} ValueNamesAreOffered(lt: Order, entries: seq<Entry>, selected: map<string, seq<Export>>,
                                                name: string)
    requires TotalOrder(lt) && Clean(entries) && Winners(lt, entries, selected)
    ensures OffersValue(entries, name) <==>
            exists path, exp :: path in selected && exp in selected[path] && exp.kind == ValueKind && exp.name == name
  {
    if OffersValue(entries, name) {
      var item :| Offers(entries, item) && item.exp.kind == ValueKind && item.exp.name == name;
      var winner := WinnerExists(lt, entries, item);
      KeyDetermines(winner.exp, item.exp);
      assert Wins(lt, entries, Item(winner.path, winner.exp));
    }
    if path, exp :| path in selected && exp in selected[path] && exp.kind == ValueKind && exp.name == name {
      assert Wins(lt, entries, Item(path, exp));
    }
  }

  lemma {:induction false} WinnerExists(lt: Order, entries: seq<Entry>, item: Item) returns (winner: Item)
    requires TotalOrder(lt) && Clean(entries) && Offers(entries, item)
    ensures Wins(lt, entries, winner) && ItemKey(winner) == ItemKey(item)
  {
    var flat := Sort(ItemLess(lt), Flatten(entries));
    SortContents(ItemLess(lt), Flatten(entries));
    ItemLessWeak(lt);
    SortSorted(ItemLess(lt), Flatten(entries));
    forall other
      ensures other in flat <==> Offers(entries, other)
    {
      FlattenOffers(entries, other);
    }
    var k :| 0 <= k < |flat| && flat[k] == item;
    var i := FirstExists(ItemKey, flat, |flat|, k);
    winner := flat[i];
    FirstIsWinner(lt, entries, flat, winner);
  }

  lemma {:induction false} FilterKeeps(lt: Order, exports: seq<Export>, valueNames: set<string>)
    requires SortedBy(ByName(lt), exports)
    ensures SortedBy(ByName(lt), Filter(exports, valueNames))
    ensures forall exp :: exp in Filter(exports, valueNames) <==>
              exp in exports && (exp.kind != TypeKind || exp.name !in valueNames)
  {
    if exports != [] {
      var front, exp := exports[..|exports| - 1], exports[|exports| - 1];
      FilterKeeps(lt, front, valueNames);
      assert exports == front + [exp];
      forall e | e in Filter(front, valueNames)
        ensures !ByName(lt)(exp, e)
      {
        var i :| 0 <= i < |front| && front[i] == e;
        assert exports[i] == e;
      }
    }
  }

  lemma {:induction false} FilterDistinct(exports: seq<Export>, valueNames: set<string>)
    requires Distinct(Key, exports)
    ensures Distinct(Key, Filter(exports, valueNames))
    ensures forall exp :: exp in Filter(exports, valueNames) ==> exp in exports
  {
    if exports != [] {
      var front, exp := exports[..|exports| - 1], exports[|exports| - 1];
      FilterDistinct(front, valueNames);
      assert exports == front + [exp];
      forall e | e in Filter(front, valueNames)
        ensures Key(e) != Key(exp)
      {
        var i :| 0 <= i < |front| && front[i] == e;
        assert exports[i] == e;
      }
    }
  }

  lemma {:induction false} SortedValues(lt: Order, entries: seq<Entry>, selected: map<string, seq<Export>>,
                                        sorted: map<string, seq<Export>>, valueNames: set<string>, name: string)
    requires TotalOrder(lt) && Clean(entries) && Winners(lt, entries, selected)
    requires sorted == map path | path in selected :: Sort(ByName(lt), selected[path])
    requires valueNames == set path: string, exp: Export |
               path in sorted && exp in sorted[path] && exp.kind == ValueKind :: exp.name
    ensures name in valueNames <==> OffersValue(entries, name)
  {
    hide Winners, OffersValue, Sort, Clean, TotalOrder;
    ValueNamesAreOffered(lt, entries, selected, name);
    forall path | path in selected
      ensures forall exp :: exp in sorted[path] <==> exp in selected[path]
    {
      SortContents(ByName(lt), selected[path]);
    }
  }

  /** A file's final list holds exactly its kept exports, strictly ordered by name. */
  ghost predicate FileIndex(lt: Order, entries: seq<Entry>, path: string, exports: seq<Export>) {
    && (forall exp :: exp in exports <==> Kept(lt, entries, Item(path, exp)))
    && StrictByName(lt, exports)
  }

  lemma {:induction false} FilteredFile(lt: Order, entries: seq<Entry>, selected: map<string, seq<Export>>,
                                        valueNames: set<string>, path: string)
    requires TotalOrder(lt) && Winners(lt, entries, selected) && path in selected
    requires forall name :: name in valueNames <==> OffersValue(entries, name)
    ensures FileIndex(lt, entries, path, Filter(Sort(ByName(lt), selected[path]), valueNames))
  {
    hide Wins, OffersValue, Sort, Filter;
    var list := selected[path];
    var sorted := Sort(ByName(lt), list);
    SortContents(ByName(lt), list);
    ByNameWeak(lt);
    SortSorted(ByName(lt), list);
    SortDistinct(ByName(lt), Key, list);
    FilterKeeps(lt, sorted, valueNames);
    FilterDistinct(sorted, valueNames);
    var final := Filter(sorted, valueNames);
    forall exp
      ensures exp in final <==> Kept(lt, entries, Item(path, exp))
    {
    }
    forall i, j | 0 <= i < j < |final|
      ensures lt(final[i].name, final[j].name)
    {
      assert !ByName(lt)(final[j], final[i]);
      KeptNamesDiffer(lt, entries, Item(path, final[i]), Item(path, final[j]));
    }
  }

  /** Two kept exports of one name have the same key: a value displaces the type of its name. */
  lemma KeptNamesDiffer(lt: Order, entries: seq<Entry>, a: Item, b: Item)
    requires Kept(lt, entries, a) && Kept(lt, entries, b)
    ensures a.exp.name == b.exp.name ==> ItemKey(a) == ItemKey(b)
  {
    KeyDetermines(a.exp, b.exp);
    assert Offers(entries, a) && Offers(entries, b);
  }

  lemma Assemble(lt: Order, entries: seq<Entry>, selected: map<string, seq<Export>>,
                 filtered: map<string, seq<Export>>, imports: map<string, seq<Export>>)
    requires Winners(lt, entries, selected) && filtered.Keys == selected.Keys
    requires forall path :: path in filtered ==> FileIndex(lt, entries, path, filtered[path])
    requires imports == map path | path in filtered && filtered[path] != [] :: filtered[path]
    ensures IsIndex(lt, entries, imports)
  {
    hide Wins, OffersValue, StrictByName;
    forall path, exp | Kept(lt, entries, Item(path, exp))
      ensures path in filtered && exp in filtered[path]
    {
      assert Wins(lt, entries, Item(path, exp));
      assert path in selected;
    }
  }

  // ----------------------------------------------------------------- consequences

  /** A name is imported exactly when some file exports it. */
  lemma {:induction false} ImportedIffOffered(lt: Order, entries: seq<Entry>, imports: map<string, seq<Export>>,
                                              name: string)
    requires TotalOrder(lt) && Clean(entries) && IsIndex(lt, entries, imports)
    ensures (exists item :: Offers(entries, item) && item.exp.name == name)
            <==> (exists path, i :: Imports(imports, name, path, i))
  {
    if item :| Offers(entries, item) && item.exp.name == name {
      var best := if OffersValue(entries, name)
                  then (var v :| Offers(entries, v) && v.exp.kind == ValueKind && v.exp.name == name; v) else item;
      var winner := WinnerExists(lt, entries, best);
      KeyDetermines(winner.exp, best.exp);
      assert Kept(lt, entries, Item(winner.path, winner.exp));
      var i :| 0 <= i < |imports[winner.path]| && imports[winner.path][i] == winner.exp;
      assert Imports(imports, name, winner.path, i);
    }
    if path, i :| Imports(imports, name, path, i) {
      assert imports[path][i] in imports[path];
      assert Kept(lt, entries, Item(path, imports[path][i]));
    }
  }

  /** No name is imported twice, neither from two files nor twice from one. */
  lemma {:induction false} ImportedOnce(lt: Order, entries: seq<Entry>, imports: map<string, seq<Export>>, name: string,
                                        p: string, i: nat, q: string, j: nat)
    requires TotalOrder(lt) && IsIndex(lt, entries, imports)
    requires Imports(imports, name, p, i) && Imports(imports, name, q, j)
    ensures p == q && i == j
  {
    hide Wins, OffersValue;
    var a, b := Item(p, imports[p][i]), Item(q, imports[q][j]);
    assert a.exp in imports[p] && b.exp in imports[q];
    KeptNamesDiffer(lt, entries, a, b);
    OneWinner(lt, entries, a, b);
    assert !lt(name, name);
  }

  ghost predicate Imports(imports: map<string, seq<Export>>, name: string, path: string, i: int) {
    path in imports && 0 <= i < |imports[path]| && imports[path][i].name == name
  }

  lemma OneWinner(lt: Order, entries: seq<Entry>, a: Item, b: Item)
    requires TotalOrder(lt) && Wins(lt, entries, a) && Wins(lt, entries, b) && ItemKey(a) == ItemKey(b)
    ensures a == b
  {
    assert Offers(entries, a) && Offers(entries, b);
  }

  /** The index does not depend on the order in which files or their exports were collected. */
  lemma {:induction false} OrderIndependent(lt: Order, first: seq<Entry>, second: seq<Entry>,
                                            a: map<string, seq<Export>>, b: map<string, seq<Export>>)
    requires TotalOrder(lt) && IsIndex(lt, first, a) && IsIndex(lt, second, b)
    requires forall item :: Offers(first, item) <==> Offers(second, item)
    ensures a == b
  {
    forall item
      ensures Kept(lt, first, item) <==> Kept(lt, second, item)
    {
      SameKept(lt, first, second, item);
      SameKept(lt, second, first, item);
    }
    ByNameWeak(lt);
    hide Kept, Offers;
    forall path
      ensures path in a <==> path in b
      ensures path in a ==> a[path] == b[path]
    {
      if path in a {
        assert a[path][0] in a[path];
      }
      if path in b {
        assert b[path][0] in b[path];
      }
      if path in a && path in b {
        StrictlySortedUnique(ByName(lt), a[path], b[path]);
      }
    }
  }

  lemma SameKept(lt: Order, first: seq<Entry>, second: seq<Entry>, item: Item)
    requires forall other :: Offers(first, other) <==> Offers(second, other)
    ensures Kept(lt, first, item) ==> Kept(lt, second, item)
  {
    hide Offers;
  }

  ghost predicate OffersKeyAt(entries: seq<Entry>, key: string, path: string) {
    exists item :: Offers(entries, item) && ItemKey(item) == key && item.path == path
  }

  ghost predicate CanonicalAt(key: string, path: string) {
    key in CANONICAL_SOURCES && CANONICAL_SOURCES[key] == path
  }

  /** Where a kept export comes from: its canonical file, else `dsp/types`, else the smallest path. */
  lemma {:induction false} WinnerPath(lt: Order, entries: seq<Entry>, winner: Item, path: string)
    requires TotalOrder(lt) && Wins(lt, entries, winner)
    requires OffersKeyAt(entries, ItemKey(winner), path) && path != winner.path
    ensures !CanonicalAt(ItemKey(winner), path)
    ensures CanonicalAt(ItemKey(winner), winner.path)
            || (path != "dsp/types" && (winner.path == "dsp/types" || lt(winner.path, path)))
  {
    hide Offers;
    var other :| Offers(entries, other) && ItemKey(other) == ItemKey(winner) && other.path == path;
    assert Preferred(lt, winner, other);
  }
}
