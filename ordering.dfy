/**
 * The turn order of a round: roster positions sorted by effective speed, fastest first,
 * with ties kept in roster order (`List.sort` is a stable sort and the comparator is
 * `comparingDouble(speed).reversed()`).
 */
module Ordering {

  /** Position `i` goes before position `j`: strictly faster, or equally fast and earlier in the roster. */
  predicate Before(keys: seq<real>, i: nat, j: nat)
    requires i < |keys| && j < |keys|
  {
    keys[i] > keys[j] || (keys[i] == keys[j] && i < j)
  }

  predicate InRange(keys: seq<real>, s: seq<nat>)
  {
    forall p :: 0 <= p < |s| ==> s[p] < |keys|
  }

  /** Every earlier entry goes before every later one. */
  predicate Ordered(keys: seq<real>, s: seq<nat>)
    requires InRange(keys, s)
  {
    forall p, q :: 0 <= p < q < |s| ==> Before(keys, s[p], s[q])
  }

  /** Insert position `i` into an ordered sequence, behind every entry that goes before it. */
  function Insert(keys: seq<real>, i: nat, s: seq<nat>): (r: seq<nat>)
    requires i < |keys| && InRange(keys, s)
    ensures InRange(keys, r) && |r| == |s| + 1
    ensures forall x :: x in r <==> x in s || x == i
  {
    if s == [] then [i]
    else if Before(keys, i, s[0]) then [i] + s
    else
      var rest := Insert(keys, i, s[1..]);
      assert s == [s[0]] + s[1..];
      [s[0]] + rest
  }

  lemma {:induction false} InsertOrdered(keys: seq<real>, i: nat, s: seq<nat>)
    requires i < |keys| && InRange(keys, s) && Ordered(keys, s) && i !in s
    ensures Ordered(keys, Insert(keys, i, s))
  {
    if s == [] {
    } else if Before(keys, i, s[0]) {
      var r := [i] + s;
      forall p, q | 0 <= p < q < |r| ensures Before(keys, r[p], r[q]) {
        if p == 0 && q > 1 {
          assert Before(keys, s[0], s[q - 1]);
        } else if p > 0 {
          assert Before(keys, s[p - 1], s[q - 1]);
        }
      }
    } else {
      var rest := Insert(keys, i, s[1..]);
      InsertOrdered(keys, i, s[1..]);
      var r := [s[0]] + rest;
      forall p, q | 0 <= p < q < |r| ensures Before(keys, r[p], r[q]) {
        if p == 0 {
          var x := rest[q - 1];
          assert x in rest;
          if x != i {
            assert x in s[1..];
            var k :| 0 <= k < |s| - 1 && s[1..][k] == x;
            assert Before(keys, s[0], s[k + 1]);
          }
        } else {
          assert Before(keys, rest[p - 1], rest[q - 1]);
        }
      }
    }
  }

  /** The first `n` roster positions in turn order. */
  function Build(keys: seq<real>, n: nat): (r: seq<nat>)
    requires n <= |keys|
    ensures InRange(keys, r) && |r| == n
    ensures forall i :: i in r <==> 0 <= i < n
  {
    if n == 0 then []
    else
      var prev := Build(keys, n - 1);
      Insert(keys, n - 1, prev)
  }

  /** The execution order of a round over roster speeds `keys`. */
  function SpeedOrder(keys: seq<real>): (r: seq<nat>)
    ensures InRange(keys, r) && |r| == |keys|
    ensures forall i :: i in r <==> 0 <= i < |keys|
  {
    Build(keys, |keys|)
  }

  lemma {:induction false} BuildOrdered(keys: seq<real>, n: nat)
    requires n <= |keys|
    ensures Ordered(keys, Build(keys, n))
  {
    if n > 0 {
      BuildOrdered(keys, n - 1);
      InsertOrdered(keys, n - 1, Build(keys, n - 1));
    }
  }

  /**
   * The turn order is a permutation of the roster positions, fastest first, and monsters of
   * equal speed act in roster order.
   */
  lemma SpeedOrderIsStableDescending(keys: seq<real>)
    ensures var r := SpeedOrder(keys);
      |r| == |keys| && (forall i :: i in r <==> 0 <= i < |keys|)
      && (forall p, q :: 0 <= p < q < |r| ==> r[p] != r[q] && keys[r[p]] >= keys[r[q]])
      && (forall p, q :: 0 <= p < q < |r| && keys[r[p]] == keys[r[q]] ==> r[p] < r[q])
  {
    BuildOrdered(keys, |keys|);
  }
}
