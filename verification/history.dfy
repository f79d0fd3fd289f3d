/**
 * Backward pagination of a conversation, as both history handlers compute it: the messages
 * are sorted newest first, the `(page - 1) * limit` newest are skipped, at most `limit` are
 * taken, and the result is reversed back to ascending order. A history is a sequence in
 * ascending timestamp order, oldest first.
 */
module History {
  import opened Common
  import ListOps

  const DefaultPage: nat := 1
  const DefaultLimit: nat := 20

  /** `parseInt(x) || d`: a missing, non-numeric or zero parameter falls back to `d`. */
  function OrDefault(q: Option<nat>, d: nat): (r: nat)
    requires d >= 1
    ensures r >= 1
    ensures q.Some? && q.value != 0 ==> r == q.value
    ensures q.None? || q.value == 0 ==> r == d
  {
    match q
    case None => d
    case Some(v) => if v == 0 then d else v
  }

  /** `skip = (page - 1) * limit`. */
  function Skip(page: nat, limit: nat): nat
    requires page >= 1
  {
    (page - 1) * limit
  }

  /** `hasMore = skip + messages.length < totalMessages`. */
  predicate HasMore(skip: nat, returned: nat, total: nat) {
    skip + returned < total
  }

  /** `n - m`, or 0 when `m` exceeds `n`: how many of `n` messages are older than the `m` newest. */
  function Remaining(n: nat, m: nat): nat {
    if m <= n then n - m else 0
  }

  function Reverse<T>(s: seq<T>): seq<T> {
    seq(|s|, i requires 0 <= i < |s| => s[|s| - 1 - i])
  }

  /**
   * The query as written: newest first, `.skip(skip)`, `.limit(limit)`, then `.reverse()`.
   * The result is the contiguous block of the history just older than its `skip` newest
   * messages, at most `limit` long, still oldest first.
   */
  function NewestPage<T>(h: seq<T>, skip: nat, limit: nat): (r: seq<T>)
    ensures r == h[Remaining(|h|, skip + limit)..Remaining(|h|, skip)]
    ensures |r| <= limit
  {
    var newest := Reverse(h);
    var rest := if skip <= |newest| then newest[skip..] else [];
    var taken := if limit <= |rest| then rest[..limit] else rest;
    var lo, hi := Remaining(|h|, skip + limit), Remaining(|h|, skip);
    assert |taken| == hi - lo;
    assert forall i :: 0 <= i < |taken| ==> taken[i] == h[hi - 1 - i];
    Reverse(taken)
  }

  /** `hasMore` is true exactly when messages older than the page remain. */
  lemma HasMoreIffOlderRemain<T>(h: seq<T>, skip: nat, limit: nat)
    ensures HasMore(skip, |NewestPage(h, skip, limit)|, |h|) <==> Remaining(|h|, skip + limit) > 0
  {
  }

  /** Pages `k, k - 1, ..., 1` concatenated in that order (oldest page first). */
  function Walk<T>(h: seq<T>, k: nat, limit: nat): seq<T>
  {
    if k == 0 then [] else NewestPage(h, Skip(k, limit), limit) + Walk(h, k - 1, limit)
  }

  /** Walking pages `k` down to 1 rebuilds the `k * limit` newest messages, oldest first, without gaps. */
  lemma {:induction false} WalkRebuildsSuffix<T>(h: seq<T>, k: nat, limit: nat)
    ensures Walk(h, k, limit) == h[Remaining(|h|, k * limit)..]
  {
    if k == 0 {
      assert Remaining(|h|, 0) == |h|;
    } else {
      WalkRebuildsSuffix(h, k - 1, limit);
      assert Skip(k, limit) + limit == k * limit;
      assert (k - 1) * limit == Skip(k, limit);
      var a, b := Remaining(|h|, k * limit), Remaining(|h|, Skip(k, limit));
      assert h[a..b] + h[b..] == h[a..];
    }
  }

  /** Enough pages rebuild the whole history in its original order. */
  lemma WalkRebuildsHistory<T>(h: seq<T>, k: nat, limit: nat)
    requires k * limit >= |h|
    ensures Walk(h, k, limit) == h
  {
    WalkRebuildsSuffix(h, k, limit);
  }

  /** A later page ends where (or before) an earlier page starts. */
  lemma LaterPageIsOlder(n: nat, j: nat, k: nat, limit: nat)
    requires 1 <= j < k
    ensures Remaining(n, Skip(k, limit)) <= Remaining(n, Skip(j, limit) + limit)
  {
    var d := k - 1 - j;
    assert Skip(k, limit) == (j + d) * limit;
    assert (j + d) * limit == j * limit + d * limit;
    assert Skip(j, limit) + limit == j * limit;
  }

  /** Different page numbers give disjoint pages when no message occurs twice. */
  lemma PagesDisjoint<T>(h: seq<T>, j: nat, k: nat, limit: nat, x: T)
    requires 1 <= j < k && ListOps.Distinct(h)
    requires x in NewestPage(h, Skip(j, limit), limit)
    ensures x !in NewestPage(h, Skip(k, limit), limit)
  {
    var n := |h|;
    LaterPageIsOlder(n, j, k, limit);
    var pj := NewestPage(h, Skip(j, limit), limit);
    var pk := NewestPage(h, Skip(k, limit), limit);
    var lj := Remaining(n, Skip(j, limit) + limit);
    var a :| 0 <= a < |pj| && pj[a] == x;
    assert x == h[lj + a];
  }

  ghost predicate Ascending<T>(h: seq<T>, time: T -> int) {
    forall a, b :: 0 <= a < b < |h| ==> time(h[a]) <= time(h[b])
  }

  /** Keeping some messages of an ascending history keeps it ascending. */
  lemma {:induction false} FilterAscending<T>(h: seq<T>, keep: T -> bool, time: T -> int)
    requires Ascending(h, time)
    ensures Ascending(ListOps.Filter(h, keep), time)
  {
    if h != [] {
      var tail := h[1..];
      assert Ascending(tail, time) by {
        forall a, b | 0 <= a < b < |tail| ensures time(tail[a]) <= time(tail[b]) {
          assert tail[a] == h[a + 1] && tail[b] == h[b + 1];
        }
      }
      FilterAscending(tail, keep, time);
      var rest := ListOps.Filter(tail, keep);
      var r := ListOps.Filter(h, keep);
      if keep(h[0]) {
        assert r == [h[0]] + rest;
        forall a, b | 0 <= a < b < |r| ensures time(r[a]) <= time(r[b]) {
          var j :| 0 <= j < |tail| && tail[j] == rest[b - 1];
          assert tail[j] == h[j + 1];
          if a > 0 {
            assert time(rest[a - 1]) <= time(rest[b - 1]);
          }
        }
      } else {
        assert r == rest;
      }
    }
  }

  /** A page of an ascending history is ascending, as `.reverse()` promises. */
  lemma PageAscending<T>(h: seq<T>, skip: nat, limit: nat, time: T -> int)
    requires Ascending(h, time)
    ensures Ascending(NewestPage(h, skip, limit), time)
  {
    var lo := Remaining(|h|, skip + limit);
    var r := NewestPage(h, skip, limit);
    forall a, b | 0 <= a < b < |r| ensures time(r[a]) <= time(r[b]) {
      assert r[a] == h[lo + a] && r[b] == h[lo + b];
    }
  }

  /**
   * Twenty-five stored messages and pages of twenty: page 1 is the twenty newest and more
   * remain; page 2 is the five oldest and nothing remains.
   */
  lemma TwentyFiveMessages<T>(h: seq<T>)
    requires |h| == 25
    ensures NewestPage(h, Skip(1, DefaultLimit), DefaultLimit) == h[5..]
    ensures HasMore(Skip(1, DefaultLimit), 20, 25)
    ensures NewestPage(h, Skip(2, DefaultLimit), DefaultLimit) == h[..5]
    ensures !HasMore(Skip(2, DefaultLimit), 5, 25)
  {
  }
}
