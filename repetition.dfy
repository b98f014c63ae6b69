/** Back-to-back copies of a list: how both snapshots unfold a repeat effect. */
module Repetition {
  /** `count` back-to-back copies of `body`. */
  function Copies<T>(body: seq<T>, count: int): (r: seq<T>)
    decreases count
  {
    if count <= 0 then [] else body + Copies(body, count - 1)
  }

  /** A count <= 0 gives nothing; otherwise the copies hold count * |body| entries, exactly those of the body. */
  lemma {:induction false} CopiesShape<T>(body: seq<T>, count: int)
    ensures count <= 0 ==> Copies(body, count) == []
    ensures count > 0 ==> |Copies(body, count)| == count * |body|
    ensures forall x :: x in Copies(body, count) <==> count > 0 && x in body
    decreases count
  {
    if count > 0 {
      CopiesShape(body, count - 1);
    }
  }

  lemma {:induction false} CopiesAppend<T>(body: seq<T>, n: nat)
    ensures Copies(body, n + 1) == Copies(body, n) + body
    decreases n
  {
    if n > 0 {
      CopiesAppend(body, n - 1);
    }
  }

  /** The copying loop of a repeat: `count` copies of `body` added to the end of `queue`, one at a time. */
  method AppendCopies<T>(queue: seq<T>, body: seq<T>, count: int) returns (r: seq<T>)
    ensures r == queue + Copies(body, count)
  {
    r := queue;
    var i := 0;
    while i < count
      invariant 0 <= i && (count >= 0 ==> i <= count) && (count <= 0 ==> i == 0)
      invariant r == queue + Copies(body, i)
    {
      CopiesAppend(body, i);
      r := r + body;
      i := i + 1;
    }
    assert Copies(body, i) == Copies(body, count);
  }
}
