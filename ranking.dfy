/** The ordering both versions of the ranking stage use.

    Both call Python's `list.sort` with a key giving the pair
    (average rainless hours, average temperature) and `reverse=True`.  That
    sort is stable, also in reverse, so its result is fully described by
    three facts: it is non-increasing in the key, it is a permutation of its
    input, and records with equal keys keep their relative order.
    `SortDescending` is a stable insertion sort proved to have all three. */
module Ranking {
  import opened Weather

  /** A sort key: a pair compared lexicographically, like a Python tuple. */
  datatype Key = Key(rainless: int, temp: int)

  predicate KeyLe(a: Key, b: Key) {
    a.rainless < b.rainless || (a.rainless == b.rainless && a.temp <= b.temp)
  }

  /** The key of a calculated record:
      (`average rainless hours for all days`, `average temp for all days`). */
  function CityKey(c: CityStat): Key {
    Key(c.avgRainless, c.avgTemp)
  }

  /** `city.pop('days')` followed by `city['rating'] = rating`. */
  function Rate(c: CityStat, rating: nat): (r: RatedCity)
    ensures r.city == c.city && r.rating == rating
    ensures Key(r.avgRainless, r.avgTemp) == CityKey(c)
  {
    RatedCity(c.city, c.avgTemp, c.avgRainless, rating)
  }

  /** The pair a rated record still carries. */
  function RatedKey(r: RatedCity): Key {
    Key(r.avgRainless, r.avgTemp)
  }

  ghost predicate SortedDesc<T>(s: seq<T>, key: T -> Key) {
    forall i, j :: 0 <= i < j < |s| ==> KeyLe(key(s[j]), key(s[i]))
  }

  /** The records of `s` whose key is `k`, in their order in `s`. */
  function WithKey<T>(s: seq<T>, key: T -> Key, k: Key): (r: seq<T>)
    ensures |r| <= |s|
  {
    if s == [] then []
    else (if key(s[0]) == k then [s[0]] else []) + WithKey(s[1..], key, k)
  }

  lemma {:induction false} WithKeyConcat<T>(a: seq<T>, b: seq<T>, key: T -> Key, k: Key)
    ensures WithKey(a + b, key, k) == WithKey(a, key, k) + WithKey(b, key, k)
  {
    if a != [] {
      assert (a + b)[1..] == a[1..] + b;
      WithKeyConcat(a[1..], b, key, k);
    } else {
      assert a + b == b;
    }
  }

  /** Inserts `x` in front of the first record whose key is not greater. */
  function Insert<T>(x: T, s: seq<T>, key: T -> Key): (r: seq<T>)
    ensures multiset(r) == multiset(s) + multiset{x}
  {
    if s == [] || KeyLe(key(s[0]), key(x)) then [x] + s
    else
      assert s == [s[0]] + s[1..];
      [s[0]] + Insert(x, s[1..], key)
  }

  lemma {:induction false} InsertSorted<T>(x: T, s: seq<T>, key: T -> Key)
    requires SortedDesc(s, key)
    ensures SortedDesc(Insert(x, s, key), key)
  {
    if s != [] && !KeyLe(key(s[0]), key(x)) {
      var rest := Insert(x, s[1..], key);
      InsertSorted(x, s[1..], key);
      forall j | 0 <= j < |rest| ensures KeyLe(key(rest[j]), key(s[0])) {
        assert rest[j] in multiset(rest);
        if rest[j] != x {
          assert rest[j] in multiset(s[1..]);
          var m :| 0 <= m < |s[1..]| && s[1..][m] == rest[j];
          assert s[m + 1] == rest[j];
        }
      }
    }
  }

  lemma {:induction false} InsertWithKey<T>(x: T, s: seq<T>, key: T -> Key, k: Key)
    ensures SortedDesc(s, key) ==>
              WithKey(Insert(x, s, key), key, k) == (if key(x) == k then [x] else []) + WithKey(s, key, k)
  {
    if s == [] || KeyLe(key(s[0]), key(x)) {
      assert ([x] + s)[1..] == s;
    } else {
      var rest := Insert(x, s[1..], key);
      assert ([s[0]] + rest)[1..] == rest;
      InsertWithKey(x, s[1..], key, k);
    }
  }

  /** `data.sort(key=..., reverse=True)`. */
  function SortDescending<T>(s: seq<T>, key: T -> Key): (r: seq<T>)
    ensures SortedDesc(r, key)
    ensures multiset(r) == multiset(s)
    ensures forall k :: WithKey(r, key, k) == WithKey(s, key, k)
  {
    if s == [] then []
    else
      var rest := SortDescending(s[1..], key);
      assert s == [s[0]] + s[1..];
      InsertSorted(s[0], rest, key);
      forall k ensures WithKey(Insert(s[0], rest, key), key, k) == WithKey(s, key, k) {
        InsertWithKey(s[0], rest, key, k);
      }
      Insert(s[0], rest, key)
  }

  /** The length of the run of leading records whose key is `k`: they all
      carry `k`, and the record after them, if any, does not. */
  function TopRun<T>(s: seq<T>, key: T -> Key, k: Key): (n: nat)
    ensures n <= |s|
    ensures forall i :: 0 <= i < n ==> key(s[i]) == k
    ensures n < |s| ==> key(s[n]) != k
  {
    if s == [] || key(s[0]) != k then 0 else 1 + TopRun(s[1..], key, k)
  }

  lemma {:induction false} NoneWithKey<T>(s: seq<T>, key: T -> Key, k: Key)
    requires forall i :: 0 <= i < |s| ==> key(s[i]) != k
    ensures WithKey(s, key, k) == []
  {
    if s != [] {
      NoneWithKey(s[1..], key, k);
    }
  }

  /** In a list sorted in descending order, the records whose key equals the
      greatest key form a prefix: the records carrying an upper bound `k` are
      exactly the leading run of `k`. */
  lemma {:induction false} SortedTopRun<T>(s: seq<T>, key: T -> Key, k: Key)
    requires SortedDesc(s, key)
    requires forall i :: 0 <= i < |s| ==> KeyLe(key(s[i]), k)
    ensures WithKey(s, key, k) == s[..TopRun(s, key, k)]
    ensures forall i :: TopRun(s, key, k) <= i < |s| ==> key(s[i]) != k
  {
    if s == [] {
    } else if key(s[0]) != k {
      assert forall i :: 0 <= i < |s| ==> KeyLe(key(s[i]), key(s[0]));
      NoneWithKey(s, key, k);
    } else {
      SortedTopRun(s[1..], key, k);
      assert s[..TopRun(s, key, k)] == [s[0]] + s[1..][..TopRun(s[1..], key, k)];
      forall i | TopRun(s, key, k) <= i < |s| ensures key(s[i]) != k {
        assert s[i] == s[1..][i - 1];
      }
    }
  }

  /** The first record of a sorted list carries the greatest key. */
  lemma SortedHeadIsMax<T>(s: seq<T>, key: T -> Key, t: seq<T>)
    requires SortedDesc(s, key) && s != []
    requires multiset(s) == multiset(t)
    ensures forall i :: 0 <= i < |t| ==> KeyLe(key(t[i]), key(s[0]))
  {
    forall i | 0 <= i < |t| ensures KeyLe(key(t[i]), key(s[0])) {
      assert t[i] in multiset(t);
      assert t[i] in multiset(s);
      var j :| 0 <= j < |s| && s[j] == t[i];
    }
  }

  /** The first record carrying key `k` is the first record of
      `WithKey(s, key, k)`; with stability this places the first of several
      tied records at the head of the sorted list. */
  lemma {:induction false} FirstWithKey<T>(s: seq<T>, key: T -> Key, k: Key) returns (j: nat)
    requires WithKey(s, key, k) != []
    ensures j < |s| && key(s[j]) == k && WithKey(s, key, k)[0] == s[j]
    ensures forall i :: 0 <= i < j ==> key(s[i]) != k
  {
    if key(s[0]) == k {
      j := 0;
    } else {
      var j' := FirstWithKey(s[1..], key, k);
      j := j' + 1;
      forall i | 0 < i < j ensures key(s[i]) != k {
        assert s[i] == s[1..][i - 1];
      }
    }
  }

  /** The head of the sorted list is the first record, in input order, of
      those carrying the greatest key. */
  lemma SortedHeadIsFirstMax<T>(s: seq<T>, key: T -> Key) returns (j: nat)
    requires s != []
    ensures j < |s| && SortDescending(s, key) != [] && SortDescending(s, key)[0] == s[j]
    ensures forall i :: 0 <= i < |s| ==> KeyLe(key(s[i]), key(s[j]))
    ensures forall i :: 0 <= i < j ==> key(s[i]) != key(s[j])
  {
    var data := SortDescending(s, key);
    assert data != [] by {
      assert s[0] in multiset(s);
    }
    var k := key(data[0]);
    assert WithKey(data, key, k) == [data[0]] + WithKey(data[1..], key, k);
    j := FirstWithKey(s, key, k);
    SortedHeadIsMax(data, key, s);
  }
}
