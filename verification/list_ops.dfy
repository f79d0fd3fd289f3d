/**
 * The array operations the client store and dialogs use, on sequences of records that carry
 * an id: `filter`, `findIndex`, replacing the first match, and the splice/unshift pair that
 * moves an entry to the front.
 */
module ListOps {

  /** `r` is `s` with some elements left out, the rest in their original order. */
  predicate IsSubsequence<T(==)>(r: seq<T>, s: seq<T>)
    decreases |s|
  {
    if r == [] then true
    else if s == [] then false
    else (r[0] == s[0] && IsSubsequence(r[1..], s[1..])) || IsSubsequence(r, s[1..])
  }

  /** No element occurs twice. */
  ghost predicate Distinct<T>(s: seq<T>) {
    forall a, b :: 0 <= a < b < |s| ==> s[a] != s[b]
  }

  /** `Array.prototype.filter`. */
  function Filter<T(==)>(s: seq<T>, keep: T -> bool): (r: seq<T>)
    ensures |r| <= |s|
    ensures forall i :: 0 <= i < |r| ==> r[i] in s && keep(r[i])
    ensures forall i :: 0 <= i < |s| && keep(s[i]) ==> s[i] in r
    ensures IsSubsequence(r, s)
  {
    if s == [] then []
    else
      var rest := Filter(s[1..], keep);
      assert s == [s[0]] + s[1..];
      if keep(s[0]) then
        assert ([s[0]] + rest)[1..] == rest;
        [s[0]] + rest
      else rest
  }

  /** Every element that passes is kept as often as it occurs; every other element is dropped. */
  lemma {:induction false} FilterCounts<T>(s: seq<T>, keep: T -> bool)
    ensures forall x :: multiset(Filter(s, keep))[x] == if keep(x) then multiset(s)[x] else 0
  {
    if s != [] {
      FilterCounts(s[1..], keep);
      assert s == [s[0]] + s[1..];
      assert multiset(s) == multiset{s[0]} + multiset(s[1..]);
      if keep(s[0]) {
        assert Filter(s, keep) == [s[0]] + Filter(s[1..], keep);
        assert multiset(Filter(s, keep)) == multiset{s[0]} + multiset(Filter(s[1..], keep));
      }
    }
  }

  lemma {:induction false} FilterAppend<T>(a: seq<T>, b: seq<T>, keep: T -> bool)
    ensures Filter(a + b, keep) == Filter(a, keep) + Filter(b, keep)
  {
    if a == [] {
      assert a + b == b;
    } else {
      assert (a + b)[1..] == a[1..] + b;
      FilterAppend(a[1..], b, keep);
    }
  }

  /** Filtering a list without repetitions gives a list without repetitions. */
  lemma {:induction false} FilterDistinct<T>(s: seq<T>, keep: T -> bool)
    requires Distinct(s)
    ensures Distinct(Filter(s, keep))
  {
    if s != [] {
      FilterDistinct(s[1..], keep);
      var rest := Filter(s[1..], keep);
      assert s[0] !in s[1..];
      assert s[0] !in rest;
    }
  }

  /** Filtering a list whose keys are distinct keeps them distinct. */
  lemma {:induction false} FilterDistinctKeys<T, K>(s: seq<T>, keep: T -> bool, key: T -> K)
    requires DistinctKeys(s, key)
    ensures DistinctKeys(Filter(s, keep), key)
  {
    if s != [] {
      FilterDistinctKeys(s[1..], keep, key);
      var rest := Filter(s[1..], keep);
      assert DistinctKeys(rest, key);
      forall b | 0 <= b < |rest| ensures key(s[0]) != key(rest[b]) {
        var j :| 0 <= j < |s[1..]| && s[1..][j] == rest[b];
        assert s[j + 1] == rest[b];
      }
      var r := Filter(s, keep);
      if keep(s[0]) {
        assert r == [s[0]] + rest;
        forall a, b | 0 <= a < b < |r| ensures key(r[a]) != key(r[b]) {
          assert r[b] == rest[b - 1];
          if a > 0 {
            assert r[a] == rest[a - 1];
            assert key(rest[a - 1]) != key(rest[b - 1]);
          }
        }
      }
    }
  }

  /** Filtering keeps everything when every element passes. */
  lemma {:induction false} FilterKeepsAll<T>(s: seq<T>, keep: T -> bool)
    requires forall x :: x in s ==> keep(x)
    ensures Filter(s, keep) == s
  {
    if s != [] {
      FilterKeepsAll(s[1..], keep);
    }
  }

  /** Two filters applied one after the other give the same list in either order. */
  lemma {:induction false} FilterCommutes<T>(s: seq<T>, p: T -> bool, q: T -> bool)
    ensures Filter(Filter(s, p), q) == Filter(Filter(s, q), p)
  {
    if s != [] {
      FilterCommutes(s[1..], p, q);
    }
  }

  /** Filters with the same verdict on every element agree. */
  lemma {:induction false} FilterAgrees<T>(s: seq<T>, p: T -> bool, q: T -> bool)
    requires forall x :: p(x) == q(x)
    ensures Filter(s, p) == Filter(s, q)
  {
    if s != [] {
      FilterAgrees(s[1..], p, q);
    }
  }

  /** `s.filter(x => key(x) !== k)`. */
  function RemoveKey<T(==), K(==)>(s: seq<T>, key: T -> K, k: K): (r: seq<T>)
    ensures forall i :: 0 <= i < |r| ==> r[i] in s && key(r[i]) != k
    ensures forall i :: 0 <= i < |s| && key(s[i]) != k ==> s[i] in r
    ensures IsSubsequence(r, s)
  {
    Filter(s, x => key(x) != k)
  }

  /** Nothing is removed when no element has the key. */
  lemma RemoveKeyAbsent<T, K>(s: seq<T>, key: T -> K, k: K)
    requires forall x :: x in s ==> key(x) != k
    ensures RemoveKey(s, key, k) == s
  {
    FilterKeepsAll(s, x => key(x) != k);
  }

  lemma RemoveKeyAppend<T, K>(a: seq<T>, b: seq<T>, key: T -> K, k: K)
    ensures RemoveKey(a + b, key, k) == RemoveKey(a, key, k) + RemoveKey(b, key, k)
  {
    FilterAppend(a, b, x => key(x) != k);
  }

  lemma RemoveKeyDistinct<T, K>(s: seq<T>, key: T -> K, k: K)
    requires Distinct(s)
    ensures Distinct(RemoveKey(s, key, k))
  {
    FilterDistinct(s, x => key(x) != k);
  }

  lemma RemoveKeyDistinctKeys<T, K>(s: seq<T>, key: T -> K, k: K)
    requires DistinctKeys(s, key)
    ensures DistinctKeys(RemoveKey(s, key, k), key)
  {
    FilterDistinctKeys(s, x => key(x) != k, key);
  }

  /** Removing a key before or after another filter gives the same list. */
  lemma RemoveKeyCommutes<T, K>(s: seq<T>, key: T -> K, k: K, p: T -> bool)
    ensures RemoveKey(Filter(s, p), key, k) == Filter(RemoveKey(s, key, k), p)
  {
    FilterCommutes(s, p, x => key(x) != k);
  }

  /** Every element without the key survives as often as it occurred. */
  lemma {:induction false} RemoveKeyKeepsOthers<T, K>(s: seq<T>, key: T -> K, k: K, y: T)
    requires key(y) != k
    ensures multiset(RemoveKey(s, key, k))[y] == multiset(s)[y]
  {
    if s != [] {
      assert s == [s[0]] + s[1..];
      RemoveKeyAppend([s[0]], s[1..], key, k);
      RemoveKeyKeepsOthers(s[1..], key, k, y);
    }
  }

  /** `Array.prototype.findIndex` on the key: the first index whose key is `k`, or -1. */
  function FindIndex<T, K(==)>(s: seq<T>, key: T -> K, k: K): (i: int)
    ensures -1 <= i < |s|
    ensures i == -1 <==> forall j :: 0 <= j < |s| ==> key(s[j]) != k
    ensures 0 <= i ==> key(s[i]) == k && forall j :: 0 <= j < i ==> key(s[j]) != k
  {
    if s == [] then -1
    else if key(s[0]) == k then 0
    else
      var i := FindIndex(s[1..], key, k);
      if i == -1 then -1 else i + 1
  }

  /**
   * The in-place update `s[findIndex(...)] = v` guarded by `index !== -1`: the first entry
   * whose key is `key(v)` is replaced by `v`.
   */
  function ReplaceFirst<T, K(==)>(s: seq<T>, key: T -> K, v: T): (r: seq<T>)
    ensures |r| == |s|
    ensures FindIndex(r, key, key(v)) == FindIndex(s, key, key(v))
    ensures FindIndex(s, key, key(v)) == -1 ==> r == s
    ensures FindIndex(s, key, key(v)) != -1 ==> r[FindIndex(s, key, key(v))] == v
    ensures forall j :: 0 <= j < |s| && j != FindIndex(s, key, key(v)) ==> r[j] == s[j]
  {
    var i := FindIndex(s, key, key(v));
    if i == -1 then s
    else
      var r := s[i := v];
      assert forall j :: 0 <= j < i ==> key(r[j]) != key(v);
      assert key(r[i]) == key(v);
      r
  }

  /**
   * The in-place `splice(index, 1)` followed by `unshift(entry)`: the first entry with key
   * `k` moves to the front; nothing changes when there is none.
   */
  function MoveToFront<T(==), K(==)>(s: seq<T>, key: T -> K, k: K): (r: seq<T>)
    ensures multiset(r) == multiset(s)
    ensures FindIndex(s, key, k) == -1 ==> r == s
    ensures FindIndex(s, key, k) != -1 ==>
      var i := FindIndex(s, key, k);
      r[0] == s[i] && r[1..] == s[..i] + s[i + 1..]
  {
    var i := FindIndex(s, key, k);
    if i == -1 then s
    else
      assert s == s[..i] + [s[i]] + s[i + 1..];
      var r := [s[i]] + (s[..i] + s[i + 1..]);
      assert r[1..] == s[..i] + s[i + 1..];
      r
  }

  /** Moving the same entry to the front a second time changes nothing. */
  lemma MoveToFrontIdempotent<T, K>(s: seq<T>, key: T -> K, k: K)
    ensures MoveToFront(MoveToFront(s, key, k), key, k) == MoveToFront(s, key, k)
  {
    var r := MoveToFront(s, key, k);
    if FindIndex(s, key, k) != -1 {
      assert FindIndex(r, key, k) == 0;
      assert r == [r[0]] + r[1..];
    }
  }

  /** No two entries share a key. */
  ghost predicate DistinctKeys<T, K>(s: seq<T>, key: T -> K) {
    forall a, b :: 0 <= a < b < |s| ==> key(s[a]) != key(s[b])
  }

  /** Moving an entry to the front keeps keys distinct. */
  lemma MoveToFrontDistinctKeys<T, K>(s: seq<T>, key: T -> K, k: K)
    requires DistinctKeys(s, key)
    ensures DistinctKeys(MoveToFront(s, key, k), key)
  {
    var r := MoveToFront(s, key, k);
    var i := FindIndex(s, key, k);
    if i != -1 {
      forall a, b | 0 <= a < b < |r| ensures key(r[a]) != key(r[b]) {
        var sa := if a == 0 then i else if a <= i then a - 1 else a;
        var sb := if b <= i then b - 1 else b;
        assert r[a] == s[sa] && r[b] == s[sb] by {
          assert r[1..][b - 1] == r[b];
          if a > 0 { assert r[1..][a - 1] == r[a]; }
        }
      }
    }
  }

  /** Putting an entry with a new key in front keeps keys distinct. */
  lemma PrependDistinctKeys<T, K>(s: seq<T>, key: T -> K, x: T)
    requires DistinctKeys(s, key) && FindIndex(s, key, key(x)) == -1
    ensures DistinctKeys([x] + s, key)
  {
    var r := [x] + s;
    forall a, b | 0 <= a < b < |r| ensures key(r[a]) != key(r[b]) {
      assert r[b] == s[b - 1];
      if a > 0 { assert r[a] == s[a - 1]; }
    }
  }

  /** Replacing the entry that has the same key keeps keys distinct. */
  lemma ReplaceFirstDistinctKeys<T, K>(s: seq<T>, key: T -> K, v: T)
    requires DistinctKeys(s, key)
    ensures DistinctKeys(ReplaceFirst(s, key, v), key)
  {
    var r := ReplaceFirst(s, key, v);
    var i := FindIndex(s, key, key(v));
    forall a, b | 0 <= a < b < |r| ensures key(r[a]) != key(r[b]) {
      if a == i {
        assert key(r[a]) == key(s[a]);
      } else if b == i {
        assert key(r[b]) == key(s[b]);
      }
    }
  }
}
