/** Finding a record by id, as the server's route handlers do with
    `array.findIndex(r => r.id === id)` and `array.find(...)`. */
module Lookup {

  /** The index `findIndex` returns: the first position whose key is `id`,
      or -1 when there is none. */
  function FirstIndex<T>(items: seq<T>, key: T -> int, id: int): (r: int)
    ensures -1 <= r < |items|
    ensures r >= 0 ==> key(items[r]) == id
    ensures r >= 0 ==> forall j :: 0 <= j < r ==> key(items[j]) != id
    ensures r == -1 <==> forall j :: 0 <= j < |items| ==> key(items[j]) != id
  {
    if items == [] then -1
    else if key(items[0]) == id then 0
    else
      var k := FirstIndex(items[1..], key, id);
      assert forall j :: 1 <= j < |items| ==> items[j] == items[1..][j - 1];
      if k == -1 then -1 else k + 1
  }

  /** `items.findIndex(r => key(r) === id)`, scanning from the front. */
  method FindIndex<T>(items: seq<T>, key: T -> int, id: int) returns (index: int)
    ensures index == FirstIndex(items, key, id)
  {
    var i := 0;
    while i < |items|
      invariant 0 <= i <= |items|
      invariant forall j :: 0 <= j < i ==> key(items[j]) != id
    {
      if key(items[i]) == id {
        FirstIndexUnique(items, key, id, i);
        return i;
      }
      i := i + 1;
    }
    index := -1;
  }

  /** The two facts that characterise a first match determine it. */
  lemma FirstIndexUnique<T>(items: seq<T>, key: T -> int, id: int, i: int)
    requires 0 <= i < |items| && key(items[i]) == id
    requires forall j :: 0 <= j < i ==> key(items[j]) != id
    ensures FirstIndex(items, key, id) == i
  {
  }

  /** Records numbered 1, 2, 3, ... in order: what `id: items.length + 1`
      followed by `push` produces when nothing is ever removed. */
  ghost predicate NumberedFromOne<T>(items: seq<T>, key: T -> int) {
    forall i :: 0 <= i < |items| ==> key(items[i]) == i + 1
  }

  /** In a table numbered from one, the record with id `id` sits at
      position `id - 1`, and there is none outside `1..|items|`. */
  lemma NumberedLookup<T>(items: seq<T>, key: T -> int, id: int)
    requires NumberedFromOne(items, key)
    ensures FirstIndex(items, key, id) == if 1 <= id <= |items| then id - 1 else -1
  {
    if 1 <= id <= |items| {
      FirstIndexUnique(items, key, id, id - 1);
    }
  }

  /** Appending the record numbered `|items| + 1` keeps the numbering. */
  lemma NumberedAppend<T>(items: seq<T>, key: T -> int, x: T)
    requires NumberedFromOne(items, key)
    requires key(x) == |items| + 1
    ensures NumberedFromOne(items + [x], key)
  {
  }
}
