/** Properties of one routing step: which queue routeItem picks, that a
    sequence keeps the queue it was first routed to, that dispatching never
    creates or duplicates items, and the two versions of the base class's
    dispatchOne. */
module Routing {
  import opened Values
  import opened Fifo
  import opened Pipeline

  // ---------------------------------------------------------------------
  // The queues' contents as one multiset

  /** All output queues one after the other. */
  function Flat(qs: seq<seq<Value>>): seq<Value> {
    if qs == [] then [] else qs[0] + Flat(qs[1..])
  }

  /** Every item the service still holds past its input queue. */
  function Items(s: State): multiset<Value> {
    multiset(s.staging) + multiset(Flat(s.outputs))
  }

  lemma {:induction false} FlatDeliver(qs: seq<seq<Value>>, c: nat, x: Value)
    requires c < |qs|
    ensures multiset(Flat(qs[c := qs[c] + [x]])) == multiset(Flat(qs)) + multiset{x}
  {
    var qs' := qs[c := qs[c] + [x]];
    if c == 0 {
      assert qs'[1..] == qs[1..];
    } else {
      assert qs'[1..] == qs[1..][c - 1 := qs[c] + [x]];
      FlatDeliver(qs[1..], c - 1, x);
    }
  }

  lemma {:induction false} FlatShift(qs: seq<seq<Value>>, c: nat)
    requires c < |qs| && qs[c] != []
    ensures multiset(Flat(qs[c := qs[c][1..]])) + multiset{qs[c][0]} == multiset(Flat(qs))
  {
    var qs' := qs[c := qs[c][1..]];
    if c == 0 {
      assert qs'[1..] == qs[1..];
      assert qs[0] == [qs[0][0]] + qs[0][1..];
    } else {
      assert qs'[1..] == qs[1..][c - 1 := qs[c][1..]];
      FlatShift(qs[1..], c - 1);
    }
  }

  // ---------------------------------------------------------------------
  // routeItem

  /** The route routeItem uses for an item: the cached route of its
      sequence when its sequence id is truthy and has been routed before,
      the router's answer otherwise. */
  function Chosen(s: State, item: Value, route: Router): Result<int> {
    var id := SeqId(item);
    if Truthy(id) && id.value in s.seqRoute then Ok(s.seqRoute[id.value]) else route(item)
  }

  /** routeItem succeeds exactly when the chosen route names an output
      queue, and then appends the item to that queue and to no other; on
      failure no queue changes, and a route outside the queues fails with
      "Bad dispatch route number". The route is cached exactly for a truthy
      sequence id the router was asked about. */
  lemma RouteItemSpec(s: State, item: Value, route: Router)
    ensures var (s', st) := RouteItem(s, item, route);
      var c := Chosen(s, item, route);
      var id := SeqId(item);
      && (st.Pass? <==> c.Ok? && InRange(s, c.value))
      && (st.Pass? ==> s'.outputs == s.outputs[c.value := s.outputs[c.value] + [item]])
      && (st.Fail? ==> s'.outputs == s.outputs)
      && (c.Ok? && !InRange(s, c.value) ==> st == Fail(BadDispatchRoute))
      && (c.Err? ==> st == Fail(c.error))
      && s'.seqRoute == (if Truthy(id) && id.value !in s.seqRoute && c.Ok?
                         then s.seqRoute[id.value := c.value] else s.seqRoute)
  {
  }

  /** Channel stickiness: once a sequence has a cached route, routeItem does
      not consult the router at all for its items. */
  lemma CachedRouteIgnoresRouter(s: State, item: Value, route1: Router, route2: Router)
    requires Truthy(SeqId(item)) && SeqId(item).value in s.seqRoute
    ensures RouteItem(s, item, route1) == RouteItem(s, item, route2)
  {
  }

  /** The route cached for a sequence is never changed afterwards. */
  predicate Extends(a: map<Value, int>, b: map<Value, int>) {
    forall k :: k in a ==> k in b && b[k] == a[k]
  }

  /** A sequence id that is present but falsy (`0`, `""`, `false`) still
      makes an item wait for its turn in dispatchOne, but routeItem then
      routes it afresh and caches nothing: the tests `!= undefined` and
      `!seqId` differ. */
  lemma FalsySequenceIsNotSticky(s: State, item: Value, route: Router)
    requires Sequenced(item) && !Truthy(SeqId(item))
    ensures RouteItem(s, item, route).0.seqRoute == s.seqRoute
    ensures Chosen(s, item, route) == route(item)
  {
  }

  // ---------------------------------------------------------------------
  // Sequential dispatchOne

  /** The sequential dispatchOne never loses or duplicates an item except
      the one it took from the staging queue when it raises: a released or
      unsequenced item lands in exactly one output queue, a held-back one
      goes back to the end of the staging queue. */
  lemma SeqDispatchOneConserves(s: State, route: Router)
    ensures var (s', st) := SeqDispatchOne(s, route);
      && (s.staging == [] ==> s' == s && st == Fail(RanOut))
      && (s.staging != [] && st.Pass? ==> Items(s') == Items(s))
      && (s.staging != [] && st.Fail? ==> Items(s') + multiset{s.staging[0]} == Items(s))
  {
    if s.staging != [] {
      var x, rest := s.staging[0], s.staging[1..];
      var s1 := s.(staging := rest);
      assert s.staging == [x] + rest;
      assert Items(s1) + multiset{x} == Items(s);
      if x != Null && Sequenced(x) && IsInteger(Get(x, "_part")) {
        if Releasable(s, x) {
          var s2 := s1.(seqIndex := s.seqIndex[SeqId(x).value := Part(x)]);
          assert Items(s2) == Items(s1);
          RouteItemDelta(s2, x, route);
        } else {
          assert multiset(rest + [x]) == multiset(s.staging);
        }
      } else if x != Null && !Sequenced(x) {
        RouteItemDelta(s1, x, route);
      }
    }
  }

  /** RouteItem in terms of Items. */
  lemma RouteItemDelta(s: State, item: Value, route: Router)
    ensures var (s', st) := RouteItem(s, item, route);
      && s'.staging == s.staging
      && (st.Pass? ==> Items(s') == Items(s) + multiset{item})
      && (st.Fail? ==> Items(s') == Items(s))
  {
    RouteItemSpec(s, item, route);
    var (s', st) := RouteItem(s, item, route);
    if st.Pass? {
      FlatDeliver(s.outputs, Chosen(s, item, route).value, item);
    }
  }

  /** The three ways the sequential dispatchOne treats a non-null head `x`:
      an unsequenced item goes straight to routeItem; a sequenced item
      whose `_part` is not an integer raises "Sequence part is not int" and
      is not put back; a released part goes to routeItem after its
      sequence's index has moved to it. Whenever routeItem runs, the item
      ends at the tail of exactly the chosen queue when the step passes,
      and no queue changes when it raises. */
  lemma SeqDispatchOneBranches(s: State, route: Router)
    requires s.staging != [] && s.staging[0] != Null
    ensures var (s', st) := SeqDispatchOne(s, route);
      var x := s.staging[0];
      var rest := s.staging[1..];
      && (!Sequenced(x) ==> (s', st) == RouteItem(s.(staging := rest), x, route))
      && (Sequenced(x) && !IsInteger(Get(x, "_part")) ==> s' == s.(staging := rest) && st == Fail(PartNotInt))
      && (Sequenced(x) && IsInteger(Get(x, "_part")) && Releasable(s, x) ==>
            (s', st) == RouteItem(s.(staging := rest, seqIndex := s.seqIndex[SeqId(x).value := Part(x)]), x, route))
      && (!Sequenced(x) || (IsInteger(Get(x, "_part")) && Releasable(s, x)) ==>
            && s'.staging == rest
            && (st.Pass? ==> exists c :: 0 <= c < |s.outputs| && s'.outputs == s.outputs[c := s.outputs[c] + [x]])
            && (st.Fail? ==> s'.outputs == s.outputs))
  {
    var x := s.staging[0];
    var rest := s.staging[1..];
    if !Sequenced(x) {
      RouteItemSpec(s.(staging := rest), x, route);
    } else if IsInteger(Get(x, "_part")) && Releasable(s, x) {
      RouteItemSpec(s.(staging := rest, seqIndex := s.seqIndex[SeqId(x).value := Part(x)]), x, route);
    }
  }

  /** Whether dispatchOne releases a sequenced item: exactly when its part
      is the next one of its sequence, and then the sequence's index
      becomes that part and the item leaves the staging queue; otherwise
      the item goes to the back of the staging queue and nothing else
      changes. */
  lemma SeqDispatchOneRelease(s: State, route: Router)
    requires s.staging != [] && s.staging[0] != Null
    requires Sequenced(s.staging[0]) && IsInteger(Get(s.staging[0], "_part"))
    ensures var (s', st) := SeqDispatchOne(s, route);
      var x := s.staging[0];
      var id := SeqId(x).value;
      if Releasable(s, x) then
        && s'.seqIndex == s.seqIndex[id := Part(x)]
        && s'.staging == s.staging[1..]
      else
        s' == s.(staging := s.staging[1..] + [x]) && st == Pass
  {
  }

  /** The index of a sequence advances before routeItem runs, so it has
      advanced even when the router then raises and the item is lost. */
  lemma IndexAdvancesBeforeRouting(s: State, route: Router)
    requires s.staging != [] && s.staging[0] != Null
    requires Sequenced(s.staging[0]) && IsInteger(Get(s.staging[0], "_part"))
    requires Releasable(s, s.staging[0])
    requires Chosen(s, s.staging[0], route).Err?
    ensures var (s', st) := SeqDispatchOne(s, route);
      && st.Fail?
      && s'.seqIndex[SeqId(s.staging[0]).value] == Part(s.staging[0])
      && s'.outputs == s.outputs
  {
    var x := s.staging[0];
    var s1 := s.(staging := s.staging[1..], seqIndex := s.seqIndex[SeqId(x).value := Part(x)]);
    RouteItemSpec(s1, x, route);
  }

  /** Every value of the sequence index is a part that was released. */
  predicate IndexNonNegative(s: State) {
    forall id :: id in s.seqIndex ==> s.seqIndex[id] >= 0
  }

  /** An item with a negative part is accepted by the integer test but
      never released: it circles through the staging queue for ever. */
  lemma NegativePartIsHeldBack(s: State, route: Router)
    requires IndexNonNegative(s)
    requires s.staging != [] && s.staging[0] != Null
    requires Sequenced(s.staging[0]) && IsInteger(Get(s.staging[0], "_part"))
    requires Part(s.staging[0]) < 0
    ensures SeqDispatchOne(s, route) == (s.(staging := s.staging[1..] + [s.staging[0]]), Pass)
  {
    var x := s.staging[0];
    assert !Releasable(s, x) by {
      if SeqId(x).value in s.seqIndex {
        assert s.seqIndex[SeqId(x).value] >= 0;
      }
    }
  }

  /** The sequential dispatchOne keeps the index non-negative. */
  lemma SeqDispatchOneKeepsIndexNonNegative(s: State, route: Router)
    requires IndexNonNegative(s)
    ensures IndexNonNegative(SeqDispatchOne(s, route).0)
  {
  }

  // ---------------------------------------------------------------------
  // MessageService.dispatchOne, as written and corrected

  /** As written, the base class's dispatchOne never puts anything in an
      output queue: the enqueue sits behind the test for an OUT-of-range
      route. */
  lemma BaseDispatchOneNeverDelivers(s: State, route: Router)
    ensures BaseDispatchOne(s, route).0.outputs == s.outputs
  {
  }

  /** The input that shows it: one output queue, a router answering 0; the
      staged item vanishes and no exception is raised. */
  lemma BaseDispatchOneDropsRoutedItem(x: Value)
    requires x != Null
    ensures var s := State([], [x], [[]], map[], map[]);
      BaseDispatchOne(s, _ => Ok(0)) == (s.(staging := []), Pass)
  {
  }

  /** With the test inverted back, an item routed to an existing queue is
      appended to that queue and to no other, so nothing is lost. */
  lemma CorrectedBaseDispatchOneDelivers(s: State, route: Router)
    requires s.staging != [] && s.staging[0] != Null
    requires route(s.staging[0]).Ok? && InRange(s, route(s.staging[0]).value)
    ensures var (s', st) := CorrectedBaseDispatchOne(s, route);
      var n := route(s.staging[0]).value;
      && st == Pass
      && s'.outputs == s.outputs[n := s.outputs[n] + [s.staging[0]]]
      && Items(s') == Items(s)
  {
    var n := route(s.staging[0]).value;
    assert s.staging == [s.staging[0]] + s.staging[1..];
    FlatDeliver(s.outputs, n, s.staging[0]);
  }
}
