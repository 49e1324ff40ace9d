/** The lookup every `upsert*` method of the store performs, and the update-or-append
    that follows it, over any record type: `idOf` reads a record's id, `keyOf` its
    natural key (email, name, userId, title or slug). */
module Keyed {
  import opened Wrappers

  /** JavaScript truthiness of an optional string: present and non-empty. */
  predicate Truthy(s: Option<string>) {
    s.Some? && s.value != ""
  }

  /** The `findIndex` callback: by id when the candidate's id is truthy, otherwise by
      natural key. */
  predicate Matches<T>(item: T, id: Option<string>, idOf: T -> string, keyOf: T -> string, key: string) {
    if Truthy(id) then idOf(item) == id.value else keyOf(item) == key
  }

  /** `items.findIndex(...)`: the first matching index, or -1. */
  function LookupIndex<T>(items: seq<T>, id: Option<string>, idOf: T -> string, keyOf: T -> string, key: string): (i: int)
    ensures -1 <= i < |items|
    ensures 0 <= i ==> Matches(items[i], id, idOf, keyOf, key)
    ensures forall j :: 0 <= j < |items| && (i < 0 || j < i) ==> !Matches(items[j], id, idOf, keyOf, key)
  {
    if items == [] then -1
    else if Matches(items[0], id, idOf, keyOf, key) then 0
    else
      var i := LookupIndex(items[1..], id, idOf, keyOf, key);
      if i < 0 then -1 else i + 1
  }

  /** `items.find(x => keyOf(x) === key)`, as an index: the first record whose key is
      `key`, or -1. */
  function FirstWith<T>(items: seq<T>, keyOf: T -> string, key: string): (i: int)
    ensures -1 <= i < |items|
    ensures 0 <= i ==> keyOf(items[i]) == key
    ensures forall j :: 0 <= j < |items| && (i < 0 || j < i) ==> keyOf(items[j]) != key
  {
    if items == [] then -1
    else if keyOf(items[0]) == key then 0
    else
      var i := FirstWith(items[1..], keyOf, key);
      if i < 0 then -1 else i + 1
  }

  /** The collection after an upsert, and the record the upsert returns: the first
      match is replaced by `merge` of itself, or else `created` is appended. */
  function Upsert<T>(items: seq<T>, id: Option<string>, idOf: T -> string, keyOf: T -> string, key: string,
                     merge: T -> T, created: T): (r: (seq<T>, T))
    ensures r.1 in r.0
    ensures |r.0| == |items| || r.0 == items + [r.1]
  {
    var i := LookupIndex(items, id, idOf, keyOf, key);
    if i >= 0 then
      var updated := items[i := merge(items[i])];
      assert updated[i] == merge(items[i]);
      (updated, merge(items[i]))
    else
      assert (items + [created])[|items|] == created;
      (items + [created], created)
  }

  /** With a match, the first match is updated in place: same length, same position,
      every other record untouched. */
  lemma {:induction false} UpsertUpdatesFirstMatch<T>(items: seq<T>, id: Option<string>, idOf: T -> string,
                                                      keyOf: T -> string, key: string, merge: T -> T, created: T, i: int)
    requires 0 <= i < |items| && Matches(items[i], id, idOf, keyOf, key)
    requires forall j :: 0 <= j < i ==> !Matches(items[j], id, idOf, keyOf, key)
    ensures var (r, x) := Upsert(items, id, idOf, keyOf, key, merge, created);
      && |r| == |items| && r[i] == x == merge(items[i])
      && forall j :: 0 <= j < |items| && j != i ==> r[j] == items[j]
  {
    var k := LookupIndex(items, id, idOf, keyOf, key);
    assert 0 <= k <= i;
    assert k == i;
  }

  /** Without a match, exactly one record is appended and the others are untouched. */
  lemma UpsertAppendsWithoutMatch<T>(items: seq<T>, id: Option<string>, idOf: T -> string,
                                     keyOf: T -> string, key: string, merge: T -> T, created: T)
    requires forall j :: 0 <= j < |items| ==> !Matches(items[j], id, idOf, keyOf, key)
    ensures Upsert(items, id, idOf, keyOf, key, merge, created) == (items + [created], created)
  {
    assert LookupIndex(items, id, idOf, keyOf, key) < 0;
  }

  /** Upserting the same candidate twice is the same as upserting it once, when a
      merged match and the created record still match and merging again changes
      nothing. */
  lemma UpsertTwice<T>(items: seq<T>, id: Option<string>, idOf: T -> string, keyOf: T -> string, key: string,
                       merge: T -> T, created: T)
    requires forall x :: Matches(x, id, idOf, keyOf, key) ==> Matches(merge(x), id, idOf, keyOf, key)
    requires forall x :: merge(merge(x)) == merge(x)
    requires Matches(created, id, idOf, keyOf, key) && merge(created) == created
    ensures var once := Upsert(items, id, idOf, keyOf, key, merge, created);
      Upsert(once.0, id, idOf, keyOf, key, merge, created) == once
  {
    var i := LookupIndex(items, id, idOf, keyOf, key);
    var once := Upsert(items, id, idOf, keyOf, key, merge, created);
    if i >= 0 {
      UpsertUpdatesFirstMatch(once.0, id, idOf, keyOf, key, merge, created, i);
      assert once.0[i := merge(once.0[i])] == once.0;
    } else {
      UpsertUpdatesFirstMatch(once.0, id, idOf, keyOf, key, merge, created, |items|);
      assert once.0[|items| := created] == once.0;
    }
  }
}
