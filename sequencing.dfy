/** What SequentialMessageService promises about partitioned messages, as an
    invariant of its state that every public operation preserves: within an
    output queue the parts of a sequence appear in increasing order, only
    released parts are there, and every part of a sequence with a truthy id
    sits in the queue cached for that sequence. Also: sweeps conserve
    items, never grow the staging queue, and only advance the index. */
module Sequencing {
  import opened Values
  import opened Fifo
  import opened Pipeline
  import opened Routing

  /** A sequenced item with an integer part, the only kind dispatchOne
      releases. */
  predicate HasPart(x: Value) {
    Sequenced(x) && IsInteger(Get(x, "_part"))
  }

  function Key(x: Value): Value
    requires Sequenced(x)
  {
    SeqId(x).value
  }

  /** The parts of each sequence appear in increasing order. */
  predicate InOrder(q: seq<Value>) {
    forall i, j :: 0 <= i < j < |q| && HasPart(q[i]) && HasPart(q[j]) && Key(q[i]) == Key(q[j]) ==>
      Part(q[i]) < Part(q[j])
  }

  /** Every part in the queue is at or below its sequence's index. */
  predicate Released(q: seq<Value>, index: map<Value, int>) {
    forall i :: 0 <= i < |q| && HasPart(q[i]) ==> Key(q[i]) in index && Part(q[i]) <= index[Key(q[i])]
  }

  /** Every item with a truthy sequence id sits in the queue cached for it. */
  predicate Routed(q: seq<Value>, c: int, routes: map<Value, int>) {
    forall i :: 0 <= i < |q| && Truthy(SeqId(q[i])) ==> SeqId(q[i]).value in routes && routes[SeqId(q[i]).value] == c
  }

  predicate QueueInv(q: seq<Value>, c: int, s: State) {
    InOrder(q) && Released(q, s.seqIndex) && Routed(q, c, s.seqRoute)
  }

  /** The invariant of a sequential service. */
  predicate SeqInv(s: State) {
    && IndexNonNegative(s)
    && forall c :: 0 <= c < |s.outputs| ==> QueueInv(s.outputs[c], c, s)
  }

  /** The index of every sequence only moves forward. */
  predicate Grows(a: map<Value, int>, b: map<Value, int>) {
    forall k :: k in a ==> k in b && a[k] <= b[k]
  }

  lemma InitialSeqInv(numOut: int)
    ensures SeqInv(Initial(numOut))
  {
  }

  /** A queue stays valid when the index advances and routes are added. */
  lemma QueueInvMono(q: seq<Value>, c: int, s: State, s': State)
    requires QueueInv(q, c, s)
    requires Grows(s.seqIndex, s'.seqIndex) && Extends(s.seqRoute, s'.seqRoute)
    ensures QueueInv(q, c, s')
  {
    forall i | 0 <= i < |q| && HasPart(q[i])
      ensures Key(q[i]) in s'.seqIndex && Part(q[i]) <= s'.seqIndex[Key(q[i])]
    {
      assert Key(q[i]) in s.seqIndex;
    }
    forall i | 0 <= i < |q| && Truthy(SeqId(q[i]))
      ensures SeqId(q[i]).value in s'.seqRoute && s'.seqRoute[SeqId(q[i]).value] == c
    {
      assert SeqId(q[i]).value in s.seqRoute;
    }
  }

  /** What an item must satisfy to be appended to queue `c` of `s'`. */
  predicate Fits(q: seq<Value>, c: int, s': State, x: Value) {
    && (HasPart(x) ==>
          && Key(x) in s'.seqIndex && Part(x) == s'.seqIndex[Key(x)]
          && forall i :: 0 <= i < |q| && HasPart(q[i]) && Key(q[i]) == Key(x) ==> Part(q[i]) < Part(x))
    && (Truthy(SeqId(x)) ==> SeqId(x).value in s'.seqRoute && s'.seqRoute[SeqId(x).value] == c)
  }

  lemma AppendKeepsQueueInv(q: seq<Value>, c: int, s': State, x: Value)
    requires QueueInv(q, c, s') && Fits(q, c, s', x)
    ensures QueueInv(q + [x], c, s')
  {
    var q' := q + [x];
    forall i, j | 0 <= i < j < |q'| && HasPart(q'[i]) && HasPart(q'[j]) && Key(q'[i]) == Key(q'[j])
      ensures Part(q'[i]) < Part(q'[j])
    {
      assert q'[i] == q[i];
      if j < |q| {
        assert q'[j] == q[j];
      }
    }
    forall i | 0 <= i < |q'| && HasPart(q'[i])
      ensures Key(q'[i]) in s'.seqIndex && Part(q'[i]) <= s'.seqIndex[Key(q'[i])]
    {
      if i < |q| { assert q'[i] == q[i]; }
    }
    forall i | 0 <= i < |q'| && Truthy(SeqId(q'[i]))
      ensures SeqId(q'[i]).value in s'.seqRoute && s'.seqRoute[SeqId(q'[i]).value] == c
    {
      if i < |q| { assert q'[i] == q[i]; }
    }
  }

  /** The first item of a queue leaves; the rest stays valid. */
  lemma TailKeepsQueueInv(q: seq<Value>, c: int, s: State)
    requires QueueInv(q, c, s) && q != []
    ensures QueueInv(q[1..], c, s)
  {
    var q' := q[1..];
    forall i, j | 0 <= i < j < |q'| && HasPart(q'[i]) && HasPart(q'[j]) && Key(q'[i]) == Key(q'[j])
      ensures Part(q'[i]) < Part(q'[j])
    {
      assert q'[i] == q[i + 1] && q'[j] == q[j + 1];
    }
    forall i | 0 <= i < |q'| && HasPart(q'[i])
      ensures Key(q'[i]) in s.seqIndex && Part(q'[i]) <= s.seqIndex[Key(q'[i])]
    {
      assert q'[i] == q[i + 1];
    }
    forall i | 0 <= i < |q'| && Truthy(SeqId(q'[i]))
      ensures SeqId(q'[i]).value in s.seqRoute && s.seqRoute[SeqId(q'[i]).value] == c
    {
      assert q'[i] == q[i + 1];
    }
  }

  /** routeItem keeps the invariant of every queue, provided the item fits
      whichever queue routeItem picks. */
  lemma RouteItemKeepsInv(s: State, x: Value, route: Router)
    requires IndexNonNegative(s)
    requires forall c :: 0 <= c < |s.outputs| ==> QueueInv(s.outputs[c], c, s)
    requires HasPart(x) ==> Key(x) in s.seqIndex && Part(x) == s.seqIndex[Key(x)]
    requires forall c, i ::
      (0 <= c < |s.outputs| && 0 <= i < |s.outputs[c]| && HasPart(x)
       && HasPart(s.outputs[c][i]) && Key(s.outputs[c][i]) == Key(x)) ==> Part(s.outputs[c][i]) < Part(x)
    ensures SeqInv(RouteItem(s, x, route).0)
    ensures Grows(s.seqIndex, RouteItem(s, x, route).0.seqIndex)
    ensures Extends(s.seqRoute, RouteItem(s, x, route).0.seqRoute)
  {
    RouteItemSpec(s, x, route);
    var (s', st) := RouteItem(s, x, route);
    assert Grows(s.seqIndex, s'.seqIndex);
    forall c | 0 <= c < |s'.outputs|
      ensures QueueInv(s'.outputs[c], c, s')
    {
      QueueInvMono(s.outputs[c], c, s, s');
      if st.Pass? && c == Chosen(s, x, route).value {
        assert Fits(s.outputs[c], c, s', x);
        AppendKeepsQueueInv(s.outputs[c], c, s', x);
      }
    }
  }

  /** The sequential dispatchOne keeps the invariant and only moves the
      index and the cached routes forward. */
  lemma SeqDispatchOneKeepsInv(s: State, route: Router)
    requires SeqInv(s)
    ensures SeqInv(SeqDispatchOne(s, route).0)
    ensures Grows(s.seqIndex, SeqDispatchOne(s, route).0.seqIndex)
    ensures Extends(s.seqRoute, SeqDispatchOne(s, route).0.seqRoute)
  {
    if s.staging != [] && s.staging[0] != Null {
      var x := s.staging[0];
      var s1 := s.(staging := s.staging[1..]);
      if !Sequenced(x) {
        RouteItemKeepsInv(s1, x, route);
      } else if HasPart(x) && Releasable(s, x) {
        var s2 := s1.(seqIndex := s.seqIndex[Key(x) := Part(x)]);
        assert Grows(s.seqIndex, s2.seqIndex);
        forall c | 0 <= c < |s2.outputs|
          ensures QueueInv(s2.outputs[c], c, s2)
        {
          QueueInvMono(s.outputs[c], c, s, s2);
        }
        forall c, i | 0 <= c < |s2.outputs| && 0 <= i < |s2.outputs[c]|
          && HasPart(s2.outputs[c][i]) && Key(s2.outputs[c][i]) == Key(x)
          ensures Part(s2.outputs[c][i]) < Part(x)
        {
          assert QueueInv(s.outputs[c], c, s);
        }
        RouteItemKeepsInv(s2, x, route);
      } else if HasPart(x) {
        forall c | 0 <= c < |s.outputs|
          ensures QueueInv(s.outputs[c], c, SeqDispatchOne(s, route).0)
        {
          assert QueueInv(s.outputs[c], c, s);
        }
      } else {
        forall c | 0 <= c < |s.outputs|
          ensures QueueInv(s.outputs[c], c, SeqDispatchOne(s, route).0)
        {
          assert QueueInv(s.outputs[c], c, s);
        }
      }
    } else {
      forall c | 0 <= c < |s.outputs|
        ensures QueueInv(s.outputs[c], c, SeqDispatchOne(s, route).0)
      {
        assert QueueInv(s.outputs[c], c, s);
      }
    }
  }

  /** dispatchAll of a sequential service keeps the invariant. */
  lemma {:induction false} SweepKeepsInv(s: State, route: Router, i: nat)
    requires SeqInv(s)
    ensures SeqInv(Sweep(Sequential, s, route, i).0)
    ensures Grows(s.seqIndex, Sweep(Sequential, s, route, i).0.seqIndex)
    ensures Extends(s.seqRoute, Sweep(Sequential, s, route, i).0.seqRoute)
    decreases |s.staging| - i
  {
    if i < |s.staging| {
      SeqDispatchOneKeepsInv(s, route);
      var (s1, st) := SeqDispatchOne(s, route);
      if st.Pass? {
        SweepKeepsInv(s1, route, i + 1);
      }
    }
  }

  /** Only staging changes, so the invariant is kept. */
  lemma StagingIrrelevant(s: State, staging: seq<Value>, input: seq<Value>)
    requires SeqInv(s)
    ensures SeqInv(s.(staging := staging, input := input))
  {
    var s' := s.(staging := staging, input := input);
    forall c | 0 <= c < |s'.outputs|
      ensures QueueInv(s'.outputs[c], c, s')
    {
      assert QueueInv(s.outputs[c], c, s);
    }
  }

  /** enqueue on a sequential service keeps the invariant. */
  lemma EnqueueKeepsInv(cfg: Config, s: State, text: string)
    requires cfg.kind == Sequential && SeqInv(s)
    ensures SeqInv(Enqueue(cfg, s, text).0)
  {
    match cfg.json.parse(text)
    case None =>
    case Some(v) =>
      var s0 := s.(input := s.input + [v]);
      StagingIrrelevant(s, s.staging, s0.input);
      var (head, rest) := Shift(s0.input);
      StagingIrrelevant(s0, s0.staging, rest);
      if head.Ok? && cfg.transform(head.value).Ok? {
        var t := cfg.transform(head.value).value;
        StagingIrrelevant(s0, s0.staging + [t], rest);
        SweepKeepsInv(s0.(input := rest, staging := s0.staging + [t]), cfg.route, 0);
      }
  }

  /** next(N) on a sequential service keeps the invariant. */
  lemma NextKeepsInv(cfg: Config, s: State, ch: Value)
    requires cfg.kind == Sequential && SeqInv(s)
    ensures SeqInv(Next(cfg, s, ch).0)
  {
    SweepKeepsInv(s, cfg.route, 0);
    var (s1, st) := DispatchAll(cfg.kind, s, cfg.route);
    if st.Pass? && !OutOfBounds(s1, ch) && Names(s1, ch) {
      var n := ch.x.Floor;
      var s2 := Next(cfg, s, ch).0;
      assert s2.outputs == s1.outputs[n := Shift(s1.outputs[n]).1];
      forall c | 0 <= c < |s2.outputs|
        ensures QueueInv(s2.outputs[c], c, s2)
      {
        assert QueueInv(s1.outputs[c], c, s1);
        if c == n && s1.outputs[n] != [] {
          TailKeepsQueueInv(s1.outputs[n], n, s1);
        }
      }
    }
  }

  /** The ordering promise, unfolded: in any state a sequential service
      can reach, two parts of one sequence in the same output queue are in
      increasing order of part, and two items of a sequence with a truthy id
      are never in different output queues. */
  lemma OrderAndStickiness(s: State, c: int, d: int, i: int, j: int)
    requires SeqInv(s)
    requires 0 <= c < |s.outputs| && 0 <= d < |s.outputs|
    requires 0 <= i < |s.outputs[c]| && 0 <= j < |s.outputs[d]|
    requires Truthy(SeqId(s.outputs[c][i])) && SeqId(s.outputs[c][i]) == SeqId(s.outputs[d][j])
    ensures c == d
    ensures HasPart(s.outputs[c][i]) && HasPart(s.outputs[d][j]) && i < j ==> Part(s.outputs[c][i]) < Part(s.outputs[c][j])
  {
    assert QueueInv(s.outputs[c], c, s);
    assert QueueInv(s.outputs[d], d, s);
  }

  // ---------------------------------------------------------------------
  // Conservation and bounds of a sweep

  /** A sweep of a sequential service loses nothing when it completes, and
      exactly one item, the one whose dispatch raised, when it does not. */
  lemma {:induction false} SweepConserves(s: State, route: Router, i: nat, r: (State, Status)) returns (lost: Value)
    requires r == Sweep(Sequential, s, route, i)
    ensures r.1.Pass? ==> Items(r.0) == Items(s)
    ensures r.1.Fail? ==> Items(r.0) + multiset{lost} == Items(s)
    decreases |s.staging| - i
  {
    lost := Null;
    if i < |s.staging| {
      var r1 := SweepStep(s, route, i);
      if r1.1.Pass? {
        lost := SweepConserves(r1.0, route, i + 1, r);
      } else {
        assert r == r1;
        lost := s.staging[0];
      }
    } else {
      assert r == (s, Pass);
    }
  }

  /** The first iteration of a sequential sweep, with what it does to the
      items held. */
  lemma SweepStep(s: State, route: Router, i: nat) returns (r1: (State, Status))
    requires i < |s.staging|
    ensures Sweep(Sequential, s, route, i) == if r1.1.Fail? then r1 else Sweep(Sequential, r1.0, route, i + 1)
    ensures |r1.0.staging| <= |s.staging|
    ensures r1.1.Pass? ==> Items(r1.0) == Items(s)
    ensures r1.1.Fail? ==> Items(r1.0) + multiset{s.staging[0]} == Items(s)
  {
    SeqDispatchOneConserves(s, route);
    SweepUnfold(Sequential, s, route, i);
    r1 := SeqDispatchOne(s, route);
  }

  /** One iteration of the loop of dispatchAll. */
  lemma SweepUnfold(kind: Kind, s: State, route: Router, i: nat)
    requires i < |s.staging|
    ensures var r1 := DispatchOne(kind, s, route);
      Sweep(kind, s, route, i) == if r1.1.Fail? then r1 else Sweep(kind, r1.0, route, i + 1)
    ensures kind == Sequential ==> DispatchOne(kind, s, route) == SeqDispatchOne(s, route)
  {
  }

  /** dispatchAll calls dispatchOne at most once per item staged when it
      starts. */
  lemma SweepBound(kind: Kind, s: State, route: Router)
    ensures Attempts(kind, s, route, 0) <= |s.staging|
    ensures |DispatchAll(kind, s, route).0.staging| <= |s.staging|
  {
  }

  /** Because the bound is re-read, a sweep can end with items it never
      looked at: of two unsequenced items, only the first is dispatched. */
  lemma SweepStopsEarly(x: Value, y: Value)
    requires x != Null && y != Null && !Sequenced(x)
    ensures var s := State([], [x, y], [[]], map[], map[]);
      DispatchAll(Sequential, s, _ => Ok(0)) == (s.(staging := [y], outputs := [[x]]), Pass)
  {
    var s := State([], [x, y], [[]], map[], map[]);
    var route: Router := _ => Ok(0);
    var s1 := s.(staging := [y]);
    assert [x, y][1..] == [y];
    assert Shift(s.staging) == (Ok(x), [y]);
    assert !Truthy(SeqId(x));
    assert route(x) == Ok(0);
    var empty: seq<Value> := [];
    assert empty + [x] == [x];
    assert [empty][0 := empty + [x]] == [[x]];
    assert Place(s1, x, 0) == (s1.(outputs := [[x]]), Pass);
    assert RouteItem(s1, x, route) == (s1.(outputs := [[x]]), Pass);
    assert DispatchOne(Sequential, s, route) == (s1.(outputs := [[x]]), Pass);
    assert Sweep(Sequential, s1.(outputs := [[x]]), route, 1) == (s1.(outputs := [[x]]), Pass);
  }
}
