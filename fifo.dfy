/** The array-backed FIFO queue every stage of the pipeline is built from. */
module Fifo {
  import opened Values

  /** What `store.shift()` followed by the `item == undefined` test does to a
      queue's contents: the oldest item is removed and returned; an empty
      queue is left as it is and a `null` item is removed, and both raise
      "Ran out". */
  function Shift(q: seq<Value>): (r: (Result<Value>, seq<Value>))
    ensures q == [] ==> r == (Err(RanOut), q)
    ensures q != [] ==> r.1 == q[1..]
    ensures r.0.Ok? <==> q != [] && q[0] != Null
    ensures r.0.Ok? ==> r.0.value == q[0]
    ensures r.0.Err? ==> r.0.error == RanOut
  {
    if q == [] then (Err(RanOut), q)
    else if q[0] == Null then (Err(RanOut), q[1..])
    else (Ok(q[0]), q[1..])
  }

  /** `k` successive calls of next on a queue holding `q`: what each call
      returned and what is left. */
  function Drain(q: seq<Value>, k: nat): (seq<Result<Value>>, seq<Value>) {
    if k == 0 then ([], q)
    else
      var (head, rest) := Shift(q);
      var (heads, left) := Drain(rest, k - 1);
      ([head] + heads, left)
  }

  /** First in, first out: items enqueued behind `q` do not disturb the
      order in which the items of `q` come out, one per call, oldest first. */
  lemma {:induction false} FirstInFirstOut(q: seq<Value>, more: seq<Value>, k: nat)
    requires k <= |q| && forall i :: 0 <= i < k ==> q[i] != Null
    ensures |Drain(q + more, k).0| == k
    ensures forall i :: 0 <= i < k ==> Drain(q + more, k).0[i] == Ok(q[i])
    ensures Drain(q + more, k).1 == q[k..] + more
  {
    if k > 0 {
      assert (q + more)[1..] == q[1..] + more;
      FirstInFirstOut(q[1..], more, k - 1);
      assert q[1..][k - 1..] == q[k..];
    }
  }

  class Queue {
    var store: seq<Value>

    constructor ()
      ensures store == []
    {
      store := [];
    }

    /** Appends an item at the back. */
    method Enqueue(o: Value)
      modifies this
      ensures store == old(store) + [o]
    {
      store := store + [o];
    }

    /** Removes and returns the oldest item. */
    method Next() returns (r: Result<Value>)
      modifies this
      ensures (r, store) == Shift(old(store))
    {
      if store == [] {
        return Err(RanOut);
      }
      var item := store[0];
      store := store[1..];
      if item == Null {
        return Err(RanOut);
      }
      r := Ok(item);
    }

    /** The number of items stored. */
    method GetLength() returns (n: nat)
      ensures n == |store|
    {
      n := |store|;
    }
  }
}
