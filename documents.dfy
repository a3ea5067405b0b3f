/** A document collection of the store as a sequence in natural (insertion)
    order, with the driver operations the repositories use: `Find(...).ToList()`,
    `Find(...).FirstOrDefault()`, `InsertOne`, `ReplaceOne`, `DeleteOne` and
    `DeleteMany`. Every filter in the repositories compares one Guid field with
    a value, so the filters are given by a key function and a Guid. */
module Documents {
  import opened Common
  import opened Entities

  /** No two documents share a key: what the store's unique `_id` index keeps. */
  ghost predicate UniqueKeys<T(!new)>(s: seq<T>, key: T -> Guid) {
    forall i, j :: 0 <= i < j < |s| ==> key(s[i]) != key(s[j])
  }

  predicate HasKey<T(!new)>(s: seq<T>, key: T -> Guid, id: Guid) {
    exists i :: 0 <= i < |s| && key(s[i]) == id
  }

  /** The documents satisfying `keep`, in store order. */
  function Where<T(!new)>(s: seq<T>, keep: T -> bool): (r: seq<T>)
    ensures |r| <= |s|
    ensures forall x :: multiset(r)[x] == if keep(x) then multiset(s)[x] else 0
    ensures forall x :: x in r ==> x in s && keep(x)
  {
    if s == [] then []
    else
      assert s == [s[0]] + s[1..];
      (if keep(s[0]) then [s[0]] else []) + Where(s[1..], keep)
  }

  /** The filter `d => key(d) == id`. */
  function KeyIs<T>(key: T -> Guid, id: Guid): T -> bool {
    (x: T) => key(x) == id
  }

  /** The filter `d => key(d) != id`. */
  function KeyIsNot<T>(key: T -> Guid, id: Guid): T -> bool {
    (x: T) => key(x) != id
  }

  /** `Find(d => key(d) == id).ToList()`. */
  function FindAll<T(!new)>(s: seq<T>, key: T -> Guid, id: Guid): (r: seq<T>)
    ensures forall x :: multiset(r)[x] == if key(x) == id then multiset(s)[x] else 0
    ensures forall x :: x in r <==> x in s && key(x) == id
  {
    Where(s, KeyIs(key, id))
  }

  /** `DeleteMany(d => key(d) == id)`: what remains. */
  function DeleteMany<T(!new)>(s: seq<T>, key: T -> Guid, id: Guid): (r: seq<T>)
    ensures forall x :: multiset(r)[x] == if key(x) != id then multiset(s)[x] else 0
    ensures forall x :: x in r <==> x in s && key(x) != id
  {
    Where(s, KeyIsNot(key, id))
  }

  /** A `$lookup` equality join seen from one local document: the documents of
      `from` whose `field` equals `local`. A field a document lacks reads as
      null (`None`), and null equals null. */
  function Lookup<T(!new)>(from: seq<T>, field: T -> Option<Guid>, local: Option<Guid>): (r: seq<T>)
    ensures forall x :: x in r <==> x in from && field(x) == local
  {
    assert forall x :: FieldIs(field, local)(x) == (field(x) == local);
    Where(from, FieldIs(field, local))
  }

  /** The join condition of `Lookup`. */
  function FieldIs<T>(field: T -> Option<Guid>, local: Option<Guid>): T -> bool {
    (x: T) => field(x) == local
  }

  /** `Find(d => key(d) == id).FirstOrDefault()`. */
  function FindFirst<T(!new)>(s: seq<T>, key: T -> Guid, id: Guid): (r: Option<T>)
    ensures r.Some? ==> r.value in s && key(r.value) == id
    ensures r.None? <==> !HasKey(s, key, id)
  {
    if s == [] then None
    else if key(s[0]) == id then Some(s[0])
    else FindFirst(s[1..], key, id)
  }

  /** `DeleteOne(d => key(d) == id)`: removes the first matching document only. */
  function DeleteOne<T(!new)>(s: seq<T>, key: T -> Guid, id: Guid): (r: seq<T>)
    ensures !HasKey(s, key, id) ==> r == s
    ensures HasKey(s, key, id) ==> |r| == |s| - 1
    ensures multiset(r) <= multiset(s)
    ensures forall x :: x in s && key(x) != id ==> x in r
  {
    if s == [] then []
    else
      assert s == [s[0]] + s[1..];
      if key(s[0]) == id then s[1..] else [s[0]] + DeleteOne(s[1..], key, id)
  }

  /** `ReplaceOne(d => key(d) == id, x)`: the first matching document becomes
      `x`; the rest stay where they are. */
  function ReplaceOne<T(!new)>(s: seq<T>, key: T -> Guid, id: Guid, x: T): (r: seq<T>)
    ensures |r| == |s|
    ensures !HasKey(s, key, id) ==> r == s
    ensures HasKey(s, key, id) ==> x in r
    ensures forall k :: 0 <= k < |s| ==> r[k] == s[k] || (key(s[k]) == id && r[k] == x)
  {
    if s == [] then []
    else if key(s[0]) == id then [x] + s[1..]
    else [s[0]] + ReplaceOne(s[1..], key, id, x)
  }

  /** With unique keys, `FindFirst` finds each stored document by its key. */
  lemma FindFirstUnique<T(!new)>(s: seq<T>, key: T -> Guid, x: T)
    requires UniqueKeys(s, key)
    requires x in s
    ensures FindFirst(s, key, key(x)) == Some(x)
  {
    var r := FindFirst(s, key, key(x));
    var i :| 0 <= i < |s| && s[i] == x;
    var j :| 0 <= j < |s| && s[j] == r.value;
    assert i == j;
  }

  /** Putting a document with a new key in front keeps keys unique. */
  lemma PrependKeepsUnique<T(!new)>(x: T, t: seq<T>, key: T -> Guid)
    requires UniqueKeys(t, key)
    requires forall k :: 0 <= k < |t| ==> key(t[k]) != key(x)
    ensures UniqueKeys([x] + t, key)
  {
    var r := [x] + t;
    forall i, j | 0 <= i < j < |r| ensures key(r[i]) != key(r[j]) {
      assert r[j] == t[j - 1];
      if i > 0 {
        assert r[i] == t[i - 1];
      }
    }
  }

  /** Keeping a selection of a collection with unique keys keeps keys unique. */
  lemma {:induction false} WhereKeepsUnique<T(!new)>(s: seq<T>, key: T -> Guid, keep: T -> bool)
    requires UniqueKeys(s, key)
    ensures UniqueKeys(Where(s, keep), key)
  {
    if s != [] {
      var tail := s[1..];
      WhereKeepsUnique(tail, key, keep);
      var rest := Where(tail, keep);
      if keep(s[0]) {
        forall k | 0 <= k < |rest| ensures key(rest[k]) != key(s[0]) {
          assert rest[k] in tail;
          var j :| 0 <= j < |tail| && tail[j] == rest[k];
          assert s[j + 1] == rest[k];
        }
        PrependKeepsUnique(s[0], rest, key);
      }
    }
  }

  /** When every document passes the filter, the filter is the identity. */
  lemma {:induction false} WhereAll<T(!new)>(s: seq<T>, keep: T -> bool)
    requires forall x :: x in s ==> keep(x)
    ensures Where(s, keep) == s
  {
    if s != [] {
      WhereAll(s[1..], keep);
    }
  }

  /** With unique keys, `DeleteOne` removes the same documents `DeleteMany` does. */
  lemma {:induction false} DeleteOneUnique<T(!new)>(s: seq<T>, key: T -> Guid, id: Guid)
    requires UniqueKeys(s, key)
    ensures DeleteOne(s, key, id) == DeleteMany(s, key, id)
  {
    if s != [] {
      var keep := KeyIsNot(key, id);
      assert s == [s[0]] + s[1..];
      if key(s[0]) == id {
        forall x | x in s[1..] ensures keep(x) {
          var j :| 1 <= j < |s| && s[j] == x;
        }
        WhereAll(s[1..], keep);
      } else {
        DeleteOneUnique(s[1..], key, id);
      }
    }
  }

  /** Removing documents keeps keys unique. */
  lemma DeleteKeepsUnique<T(!new)>(s: seq<T>, key: T -> Guid, id: Guid)
    requires UniqueKeys(s, key)
    ensures UniqueKeys(DeleteMany(s, key, id), key)
    ensures UniqueKeys(DeleteOne(s, key, id), key)
  {
    WhereKeepsUnique(s, key, KeyIsNot(key, id));
    DeleteOneUnique(s, key, id);
  }

  /** Replacing a document by one with the same key keeps every key in place,
      and with unique keys the replacement lands exactly on the matching
      document. */
  lemma {:induction false} ReplaceOneUnique<T(!new)>(s: seq<T>, key: T -> Guid, x: T)
    requires UniqueKeys(s, key)
    ensures var r := ReplaceOne(s, key, key(x), x);
      && (forall k :: 0 <= k < |s| ==> r[k] == if key(s[k]) == key(x) then x else s[k])
      && UniqueKeys(r, key)
  {
    if s != [] {
      ReplaceOneUnique(s[1..], key, x);
      var r := ReplaceOne(s, key, key(x), x);
      if key(s[0]) == key(x) {
        assert r == [x] + s[1..];
        forall k | 0 < k < |s| ensures key(s[k]) != key(x) {
          assert key(s[0]) != key(s[k]);
        }
      } else {
        assert r == [s[0]] + ReplaceOne(s[1..], key, key(x), x);
      }
      assert forall k :: 0 <= k < |s| ==> key(r[k]) == key(s[k]);
    }
  }

  /** Appending a document whose key is new keeps keys unique. */
  lemma InsertKeepsUnique<T(!new)>(s: seq<T>, key: T -> Guid, x: T)
    requires UniqueKeys(s, key)
    requires !HasKey(s, key, key(x))
    ensures UniqueKeys(s + [x], key)
  {
  }

  /** When no document passes the filter, nothing is kept. */
  lemma {:induction false} WhereNone<T(!new)>(s: seq<T>, keep: T -> bool)
    requires forall x :: x in s ==> !keep(x)
    ensures Where(s, keep) == []
  {
    if s != [] {
      WhereNone(s[1..], keep);
    }
  }

  /** With unique keys, `FindAll` by the key holds at most the one document
      `FindFirst` returns. */
  lemma {:induction false} FindAllUnique<T(!new)>(s: seq<T>, key: T -> Guid, id: Guid)
    requires UniqueKeys(s, key)
    ensures FindAll(s, key, id) == match FindFirst(s, key, id) case None => [] case Some(x) => [x]
  {
    var keep := KeyIs(key, id);
    if s != [] {
      if key(s[0]) == id {
        forall x | x in s[1..] ensures !keep(x) {
          var j :| 1 <= j < |s| && s[j] == x;
        }
        WhereNone(s[1..], keep);
      } else {
        FindAllUnique(s[1..], key, id);
      }
    }
  }

  /** Filters that agree on every document keep the same documents. */
  lemma {:induction false} WhereExtensional<T(!new)>(s: seq<T>, keep1: T -> bool, keep2: T -> bool)
    requires forall x :: keep1(x) == keep2(x)
    ensures Where(s, keep1) == Where(s, keep2)
  {
    if s != [] {
      WhereExtensional(s[1..], keep1, keep2);
    }
  }
}
