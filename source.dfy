/**
 * The item source behind the cache: a fixed list of two items and the
 * helpers that look an item up by id, search by name, and delete or update
 * by id. Every helper starts from a fresh copy of the list, so what it
 * changes is a local copy and the source itself never changes.
 */
module ItemSource {
  import opened Wrappers
  import opened Decimal
  import opened Text

  datatype Item = Item(id: int, name: string)

  /** `getItemsFromSource`: the same two items on every call. */
  function Source(): seq<Item> {
    [Item(1, "item one"), Item(2, "item two")]
  }

  /** An item's id matches a request id when its decimal rendering equals it exactly. */
  predicate IdMatches(x: Item, id: string) {
    Itoa(x.id) == id
  }

  /** The position of the first item whose id matches, or `|items|` when none does. */
  function IndexOfId(items: seq<Item>, id: string): (k: nat)
    ensures k <= |items|
    ensures k < |items| ==> IdMatches(items[k], id)
    ensures forall j :: 0 <= j < k ==> !IdMatches(items[j], id)
    decreases |items|
  {
    if items == [] then 0
    else if IdMatches(items[0], id) then 0
    else 1 + IndexOfId(items[1..], id)
  }

  /** The first item whose id matches, or nothing. */
  function FindById(items: seq<Item>, id: string): (r: Option<Item>)
    ensures r.Some? <==> exists j :: 0 <= j < |items| && IdMatches(items[j], id)
    ensures r.Some? ==> r.value in items && IdMatches(r.value, id)
  {
    var k := IndexOfId(items, id);
    if k < |items| then Some(items[k]) else None
  }

  /** Case-insensitive substring match of the query against the item's name. */
  predicate MatchesName(x: Item, name: string) {
    Contains(ToLower(x.name), ToLower(name))
  }

  /** The items that match the query, in their order in `items`. */
  function Matching(items: seq<Item>, name: string): seq<Item>
    decreases |items|
  {
    if items == [] then []
    else
      var last := items[|items| - 1];
      Matching(items[..|items| - 1], name) + (if MatchesName(last, name) then [last] else [])
  }

  /** `getItemFromSourceByID`: a linear scan for the first item whose id renders as `id`. */
  method GetItemFromSourceByID(id: string) returns (r: Option<Item>)
    ensures r == FindById(Source(), id)
  {
    var items := Source();
    var i := 0;
    while i < |items|
      invariant 0 <= i <= |items|
      invariant forall j :: 0 <= j < i ==> !IdMatches(items[j], id)
    {
      if Itoa(items[i].id) == id {
        return Some(items[i]);
      }
      i := i + 1;
    }
    return None;
  }

  /** `searchItemsFromSourceByName`: keeps, in order, every source item whose name matches. */
  method SearchItemsFromSourceByName(name: string) returns (found: seq<Item>)
    ensures found == Matching(Source(), name)
  {
    found := CollectMatching(Source(), name);
  }

  /** The loop of `searchItemsFromSourceByName`, appending each matching item. */
  method CollectMatching(items: seq<Item>, name: string) returns (found: seq<Item>)
    ensures found == Matching(items, name)
  {
    found := [];
    var i := 0;
    while i < |items|
      invariant 0 <= i <= |items|
      invariant found == Matching(items[..i], name)
    {
      assert items[..i + 1][..i] == items[..i];
      if Contains(ToLower(items[i].name), ToLower(name)) {
        found := found + [items[i]];
      }
      i := i + 1;
    }
    assert items[..i] == items;
  }

  /**
   * `deleteItemFromSource`: reports whether some item's id renders as `id`.
   * The splice only shortens the local copy.
   */
  method DeleteItemFromSource(id: string) returns (found: bool)
    ensures found <==> FindById(Source(), id).Some?
  {
    var items := Source();
    var i := 0;
    while i < |items|
      invariant 0 <= i <= |items|
      invariant forall j :: 0 <= j < i ==> !IdMatches(items[j], id)
    {
      if Itoa(items[i].id) == id {
        items := items[..i] + items[i + 1..];
        return true;
      }
      i := i + 1;
    }
    return false;
  }

  /** `saveItemToSource`: stores nothing. */
  method SaveItemToSource(item: Item) {
  }

  /**
   * `updateItemInSource`: reports whether some item's id renders as `id`.
   * The overwrite only changes the local copy.
   */
  method UpdateItemInSource(id: string, updated: Item) returns (found: bool)
    ensures found <==> FindById(Source(), id).Some?
  {
    var items := Source();
    var i := 0;
    while i < |items|
      invariant 0 <= i <= |items|
      invariant forall j :: 0 <= j < i ==> !IdMatches(items[j], id)
    {
      if Itoa(items[i].id) == id {
        items := items[i := updated];
        return true;
      }
      i := i + 1;
    }
    return false;
  }

  // ---------------------------------------------------------------------
  // Properties of the lookup

  predicate UniqueIds(items: seq<Item>) {
    forall i, j :: 0 <= i < j < |items| ==> items[i].id != items[j].id
  }

  /** Looking up the rendering of a listed item's id finds exactly that item. */
  lemma FindListedItem(items: seq<Item>, k: nat)
    requires UniqueIds(items) && k < |items|
    ensures FindById(items, Itoa(items[k].id)) == Some(items[k])
  {
    var id := Itoa(items[k].id);
    var m := IndexOfId(items, id);
    if m != k {
      ItoaInjective(items[m].id, items[k].id);
    }
  }

  /** With the fixed source, exactly the strings "1" and "2" are found. */
  lemma SourceLookup(id: string)
    ensures FindById(Source(), id) ==
      (if id == "1" then Some(Item(1, "item one"))
       else if id == "2" then Some(Item(2, "item two"))
       else None)
  {
    assert Itoa(1) == "1" && Itoa(2) == "2";
  }

  // ---------------------------------------------------------------------
  // Properties of the search

  /** An item is in the result exactly when it is in the list and matches. */
  lemma {:induction false} MatchingMembers(items: seq<Item>, name: string, x: Item)
    ensures x in Matching(items, name) <==> x in items && MatchesName(x, name)
    decreases |items|
  {
    if items != [] {
      var init := items[..|items| - 1];
      MatchingMembers(init, name, x);
      assert items == init + [items[|items| - 1]];
    }
  }

  /** The search distributes over concatenation, so it keeps the list's order. */
  lemma {:induction false} MatchingConcat(a: seq<Item>, b: seq<Item>, name: string)
    ensures Matching(a + b, name) == Matching(a, name) + Matching(b, name)
    decreases |b|
  {
    if b == [] {
      assert a + b == a;
    } else {
      var binit := b[..|b| - 1];
      MatchingConcat(a, binit, name);
      assert (a + b)[..|a + b| - 1] == a + binit;
    }
  }

  lemma {:induction false} MatchingLength(items: seq<Item>, name: string)
    ensures |Matching(items, name)| <= |items|
    decreases |items|
  {
    if items != [] {
      MatchingLength(items[..|items| - 1], name);
    }
  }

  predicate Distinct(items: seq<Item>) {
    forall i, j :: 0 <= i < j < |items| ==> items[i] != items[j]
  }

  /** A list without repeated items gives a result without repeated items. */
  lemma {:induction false} MatchingDistinct(items: seq<Item>, name: string)
    requires Distinct(items)
    ensures Distinct(Matching(items, name))
    decreases |items|
  {
    if items != [] {
      var init := items[..|items| - 1];
      var last := items[|items| - 1];
      MatchingDistinct(init, name);
      if MatchesName(last, name) {
        MatchingMembers(init, name, last);
        assert last !in init;
      }
    }
  }

  /** Lower-casing the query does not change which items it finds. */
  lemma {:induction false} MatchingCaseInsensitive(items: seq<Item>, name: string)
    ensures Matching(items, name) == Matching(items, ToLower(name))
    decreases |items|
  {
    ToLowerIdempotent(name);
    if items != [] {
      MatchingCaseInsensitive(items[..|items| - 1], name);
    }
  }

  lemma ItemOneMatchesOne()
    ensures MatchesName(Item(1, "item one"), "ONE")
  {
    assert ToLower("ONE") == "one";
    assert ToLower("item one") == "item one";
    ContainsAt("item one", "one");
    assert HasPrefix("item one"[5..], "one");
  }

  lemma ItemTwoMissesOne()
    ensures !MatchesName(Item(2, "item two"), "ONE")
  {
    var s := "item two";
    assert ToLower("ONE") == "one";
    assert ToLower(s) == s;
    ContainsAt(s, "one");
    forall i | 0 <= i <= |s|
      ensures !HasPrefix(s[i..], "one")
    {
      if i + 3 <= |s| {
        assert s[i..][0] == s[i] != 'o';
      }
    }
  }

  /** Both source names start with "item". */
  lemma BothMatchItem()
    ensures MatchesName(Item(1, "item one"), "item")
    ensures MatchesName(Item(2, "item two"), "item")
  {
    var q := "item";
    assert ToLower(q) == q;
    StartsWithItem("item one");
    StartsWithItem("item two");
  }

  lemma StartsWithItem(s: string)
    requires |s| >= 4 && s[..4] == "item" && ToLower(s) == s
    ensures Contains(ToLower(s), "item")
  {
    assert HasPrefix(s, "item");
  }

  /** "ONE" finds the first source item only. */
  lemma SearchOneExample()
    ensures Matching(Source(), "ONE") == [Item(1, "item one")]
  {
    ItemOneMatchesOne();
    ItemTwoMissesOne();
    MatchingPair(Item(1, "item one"), Item(2, "item two"), "ONE");
  }

  /** "item" finds both source items, in order. */
  lemma SearchItemExample()
    ensures Matching(Source(), "item") == Source()
  {
    BothMatchItem();
    MatchingPair(Item(1, "item one"), Item(2, "item two"), "item");
  }

  lemma MatchingPair(a: Item, b: Item, name: string)
    ensures Matching([a, b], name) ==
      (if MatchesName(a, name) then [a] else []) + (if MatchesName(b, name) then [b] else [])
  {
    assert [a, b][..1] == [a];
    assert [a][..0] == [];
    assert Matching([a], name) == Matching([], name) + (if MatchesName(a, name) then [a] else []);
    assert Matching([a, b], name) == Matching([a], name) + (if MatchesName(b, name) then [b] else []);
  }
}
