/** The few store primitives the handlers use, over a collection held as a
    sequence of documents in natural (insertion) order: `find_one(filter)`,
    `find(filter)`, `delete_one(document)`, and the keyed upsert a full
    crawl performs. */
module Collection {
  import opened Outcomes

  /** Position of the first document that matches `p`: what `find_one`
      returns when no sort is given. */
  function FirstIndex<T>(s: seq<T>, p: T -> bool): (r: Option<nat>)
    ensures r.Some? ==> r.value < |s| && p(s[r.value])
    ensures r.Some? ==> forall j :: 0 <= j < r.value ==> !p(s[j])
    ensures r.None? <==> forall j :: 0 <= j < |s| ==> !p(s[j])
  {
    if |s| == 0 then None
    else if p(s[0]) then Some(0)
    else match FirstIndex(s[1..], p)
      case None => None
      case Some(k) => Some(k + 1)
  }

  /** `find(filter)`: every matching document, in store order. */
  function Filter<T(==, !new)>(s: seq<T>, p: T -> bool): (r: seq<T>)
    ensures forall x :: x in r ==> p(x)
    ensures forall x :: multiset(r)[x] == if p(x) then multiset(s)[x] else 0
  {
    if s == [] then []
    else
      var rest := Filter(s[1..], p);
      assert s == [s[0]] + s[1..];
      if p(s[0]) then [s[0]] + rest else rest
  }

  /** Filtering a collection that grew by appending is filtering the old part,
      then the new part: matches keep their store order. */
  lemma {:induction false} FilterAppend<T(!new)>(a: seq<T>, b: seq<T>, p: T -> bool)
    ensures Filter(a + b, p) == Filter(a, p) + Filter(b, p)
  {
    if a == [] {
      assert a + b == b;
    } else {
      assert (a + b)[1..] == a[1..] + b;
      FilterAppend(a[1..], b, p);
    }
  }

  /** `delete_one(x)`: removes the first document equal to `x`, if any. */
  function DeleteOne<T(==)>(s: seq<T>, x: T): (r: seq<T>)
    ensures |r| == if x in s then |s| - 1 else |s|
    ensures x !in s ==> r == s
  {
    if s == [] then []
    else
      assert s == [s[0]] + s[1..];
      if s[0] == x then s[1..] else [s[0]] + DeleteOne(s[1..], x)
  }

  /** Deleting a document that does not occur earlier in the collection
      removes exactly its own position and keeps the order of the rest. */
  lemma {:induction false} DeleteOneAt<T>(s: seq<T>, i: nat)
    requires i < |s|
    requires forall j :: 0 <= j < i ==> s[j] != s[i]
    ensures DeleteOne(s, s[i]) == s[..i] + s[i + 1..]
  {
    if i > 0 {
      var t := s[1..];
      assert t[i - 1] == s[i];
      DeleteOneAt(t, i - 1);
      assert s[..i] == [s[0]] + t[..i - 1];
      assert s[i + 1..] == t[i..];
    }
  }

  /** The set of keys present in a collection. */
  ghost function Keys<T>(s: seq<T>, key: T -> string): set<string>
  {
    set x | x in s :: key(x)
  }

  /** No two documents share a key. */
  predicate UniqueKeys<T>(s: seq<T>, key: T -> string)
  {
    forall i, j :: 0 <= i < j < |s| ==> key(s[i]) != key(s[j])
  }

  /** Removing one position from a collection with unique keys keeps the keys
      unique, and that position's key is then gone. */
  lemma UniqueWithout<T>(s: seq<T>, i: nat, key: T -> string)
    requires UniqueKeys(s, key) && i < |s|
    ensures UniqueKeys(s[..i] + s[i + 1..], key)
    ensures forall x :: x in s[..i] + s[i + 1..] ==> key(x) != key(s[i])
  {
  }

  /** Appending a document whose key is new keeps the keys unique. */
  lemma UniqueAppend<T>(s: seq<T>, x: T, key: T -> string)
    requires UniqueKeys(s, key)
    requires forall y :: y in s ==> key(y) != key(x)
    ensures UniqueKeys(s + [x], key)
  {
  }

  /** Upsert by key: replace the first document with the same key as `x`, or
      append `x` when there is none. */
  function Upsert<T>(s: seq<T>, x: T, key: T -> string): (r: seq<T>)
    ensures x in r
    ensures forall y :: y in s && key(y) != key(x) ==> y in r
    ensures forall y :: y in r ==> y == x || y in s
    ensures Keys(r, key) == Keys(s, key) + {key(x)}
    ensures |r| == if key(x) in Keys(s, key) then |s| else |s| + 1
    ensures UniqueKeys(s, key) ==> UniqueKeys(r, key)
  {
    match FirstIndex(s, y => key(y) == key(x))
    case Some(i) =>
      var r := s[i := x];
      assert r[i] == x;
      assert forall y :: y in s && key(y) != key(x) ==> y in r by {
        forall y | y in s && key(y) != key(x) ensures y in r {
          var k :| 0 <= k < |s| && s[k] == y;
          assert r[k] == y;
        }
      }
      assert forall y :: y in r ==> y == x || y in s;
      assert Keys(r, key) == Keys(s, key) + {key(x)} by {
        forall k | k in Keys(s, key) ensures k in Keys(r, key) {
          var y :| y in s && key(y) == k;
          if key(y) != key(x) { assert y in r; } else { assert x in r; }
        }
      }
      assert key(x) in Keys(s, key) by { assert s[i] in s; }
      r
    case None =>
      assert forall y :: y in s ==> key(y) != key(x) by {
        forall y | y in s ensures key(y) != key(x) {
          var k :| 0 <= k < |s| && s[k] == y;
        }
      }
      var r := s + [x];
      assert Keys(r, key) == Keys(s, key) + {key(x)};
      if UniqueKeys(s, key) then UniqueAppend(s, x, key); r else r
  }

  /** A full crawl saved document by document: upsert each of `xs` in order. */
  function UpsertAll<T>(s: seq<T>, xs: seq<T>, key: T -> string): (r: seq<T>)
    ensures Keys(r, key) == Keys(s, key) + Keys(xs, key)
    ensures UniqueKeys(s, key) ==> UniqueKeys(r, key)
    ensures forall y :: y in s && key(y) !in Keys(xs, key) ==> y in r
    ensures forall y :: y in r ==> y in s || y in xs
    decreases |xs|
  {
    if xs == [] then s
    else
      var n := |xs| - 1;
      assert xs == xs[..n] + [xs[n]];
      assert Keys(xs, key) == Keys(xs[..n], key) + {key(xs[n])};
      var before := UpsertAll(s, xs[..n], key);
      var r := Upsert(before, xs[n], key);
      assert forall y :: y in before ==> y in s || y in xs by {
        forall y | y in before ensures y in s || y in xs {
          if y !in s {
            var k :| 0 <= k < n && xs[..n][k] == y;
            assert xs[k] == y;
          }
        }
      }
      r
  }

  /** The last crawled document for each key is the one the store keeps. */
  lemma {:induction false} UpsertAllLastWins<T>(s: seq<T>, xs: seq<T>, key: T -> string, k: nat)
    requires k < |xs|
    requires forall m :: k < m < |xs| ==> key(xs[m]) != key(xs[k])
    ensures xs[k] in UpsertAll(s, xs, key)
    decreases |xs|
  {
    var n := |xs| - 1;
    var init := xs[..n];
    var before := UpsertAll(s, init, key);
    assert UpsertAll(s, xs, key) == Upsert(before, xs[n], key);
    if k < n {
      assert init[k] == xs[k];
      forall m | k < m < |init| ensures key(init[m]) != key(init[k]) {
        assert init[m] == xs[m];
      }
      UpsertAllLastWins(s, init, key, k);
      UpsertKeeps(before, xs[n], xs[k], key);
    }
  }

  /** A document whose key differs from the upserted one stays. */
  lemma UpsertKeeps<T>(s: seq<T>, x: T, y: T, key: T -> string)
    requires y in s && key(y) != key(x)
    ensures y in Upsert(s, x, key)
  {
  }
}
