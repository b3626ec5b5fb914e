/** What successive calls of next hand out. The parts of a sequence with a
    truthy id leave a sequential service in strictly increasing order of
    part, across every call of every kind, because a part is only released
    when it is the one after the sequence's index, and every part already
    handed out stays at or below that index. */
module Delivery {
  import opened Values
  import opened Fifo
  import opened Pipeline
  import opened Routing
  import opened Sequencing
  import opened Replay

  /** A part of a sequence whose id is truthy: the items that routeItem pins
      to the queue of their sequence. */
  predicate Tracked(x: Value) {
    HasPart(x) && Truthy(SeqId(x))
  }

  /** A part handed out is at or below its sequence's index and below every
      part of its sequence still in an output queue. */
  predicate Behind(x: Value, s: State)
    requires Tracked(x)
  {
    && Key(x) in s.seqIndex && Part(x) <= s.seqIndex[Key(x)]
    && forall c, j ::
         (0 <= c < |s.outputs| && 0 <= j < |s.outputs[c]| && HasPart(s.outputs[c][j]) && Key(s.outputs[c][j]) == Key(x))
         ==> Part(x) < Part(s.outputs[c][j])
  }

  predicate AllBehind(h: seq<Value>, s: State) {
    forall a :: 0 <= a < |h| && Tracked(h[a]) ==> Behind(h[a], s)
  }

  /** Of two items handed out one after the other, a later part of the same
      tracked sequence has the larger part. */
  predicate Increasing(h: seq<Value>) {
    forall a, b :: 0 <= a < b < |h| && Tracked(h[a]) && HasPart(h[b]) && Key(h[b]) == Key(h[a]) ==>
      Part(h[a]) < Part(h[b])
  }

  /** The items the calls of next among the first `i` calls return, in the
      order they return them (what Next renders as JSON). */
  function Handed(cfg: Config, s: State, calls: seq<Call>, i: nat): (h: seq<Value>)
    requires i <= |calls|
    ensures |h| <= i
  {
    if i == 0 then []
    else
      var h := Handed(cfg, s, calls, i - 1);
      match calls[i - 1]
      case Enq(_) => h
      case NextOf(n) =>
        var r := Take(cfg, RunUpTo(cfg, s, calls, i - 1).0, Num(n as real)).1;
        if r.Ok? then h + [r.value] else h
  }

  // ---------------------------------------------------------------------
  // One dispatch, one sweep

  /** A part handed out stays behind through one sequential dispatchOne: a
      part of its sequence that the step releases is the one after the
      index, which is at or above the part handed out. */
  lemma BehindAfterDispatchOne(x: Value, s: State, route: Router)
    requires Tracked(x) && Behind(x, s)
    ensures Behind(x, SeqDispatchOne(s, route).0)
  {
    var (s', st) := SeqDispatchOne(s, route);
    if s.staging != [] && s.staging[0] != Null {
      var y := s.staging[0];
      var s1 := s.(staging := s.staging[1..]);
      if !Sequenced(y) {
        RouteItemSpec(s1, y, route);
        ItemAddedBehind(x, s1, s', y);
      } else if HasPart(y) && Releasable(s, y) {
        var s2 := s1.(seqIndex := s.seqIndex[Key(y) := Part(y)]);
        RouteItemSpec(s2, y, route);
        assert Behind(x, s2);
        ItemAddedBehind(x, s2, s', y);
      }
    }
  }

  /** Behind survives appending `y` to one queue when `y` is not a part of
      the sequence at or below the one handed out. */
  lemma ItemAddedBehind(x: Value, s: State, s': State, y: Value)
    requires Tracked(x) && Behind(x, s)
    requires s'.seqIndex == s.seqIndex
    requires HasPart(y) && Key(y) == Key(x) ==> Part(x) < Part(y)
    requires s'.outputs == s.outputs
      || exists n :: 0 <= n < |s.outputs| && s'.outputs == s.outputs[n := s.outputs[n] + [y]]
    ensures Behind(x, s')
  {
    if s'.outputs != s.outputs {
      var n :| 0 <= n < |s.outputs| && s'.outputs == s.outputs[n := s.outputs[n] + [y]];
      forall c, j | 0 <= c < |s'.outputs| && 0 <= j < |s'.outputs[c]|
        && HasPart(s'.outputs[c][j]) && Key(s'.outputs[c][j]) == Key(x)
        ensures Part(x) < Part(s'.outputs[c][j])
      {
        if c == n && j == |s.outputs[n]| {
          assert s'.outputs[c][j] == y;
        } else {
          assert s'.outputs[c][j] == s.outputs[c][j];
        }
      }
    }
  }

  lemma {:induction false} BehindAfterSweep(x: Value, s: State, route: Router, i: nat)
    requires Tracked(x) && Behind(x, s)
    ensures Behind(x, Sweep(Sequential, s, route, i).0)
    decreases |s.staging| - i
  {
    if i < |s.staging| {
      SweepUnfold(Sequential, s, route, i);
      BehindAfterDispatchOne(x, s, route);
      var (s1, st) := SeqDispatchOne(s, route);
      if st.Pass? {
        BehindAfterSweep(x, s1, route, i + 1);
      }
    }
  }

  lemma AllBehindAfterSweep(h: seq<Value>, s: State, route: Router)
    requires AllBehind(h, s)
    ensures AllBehind(h, DispatchAll(Sequential, s, route).0)
  {
    forall a | 0 <= a < |h| && Tracked(h[a])
      ensures Behind(h[a], DispatchAll(Sequential, s, route).0)
    {
      BehindAfterSweep(h[a], s, route, 0);
    }
  }

  // ---------------------------------------------------------------------
  // The two calls

  /** enqueue keeps every part handed out behind. */
  lemma EnqueueKeepsBehind(cfg: Config, s: State, text: string, h: seq<Value>)
    requires cfg.kind == Sequential && AllBehind(h, s)
    ensures AllBehind(h, Enqueue(cfg, s, text).0)
  {
    match cfg.json.parse(text)
    case None =>
    case Some(v) =>
      var s0 := s.(input := s.input + [v]);
      var (head, rest) := Shift(s0.input);
      if head.Ok? && cfg.transform(head.value).Ok? {
        var s1 := s0.(input := rest, staging := s0.staging + [cfg.transform(head.value).value]);
        assert AllBehind(h, s1) by {
          forall a | 0 <= a < |h| && Tracked(h[a]) ensures Behind(h[a], s1) {
            assert Behind(h[a], s);
          }
        }
        AllBehindAfterSweep(h, s1, cfg.route);
      } else {
        assert AllBehind(h, s0.(input := rest)) by {
          forall a | 0 <= a < |h| && Tracked(h[a]) ensures Behind(h[a], s0.(input := rest)) {
            assert Behind(h[a], s);
          }
        }
      }
  }

  /** next hands out the head of one output queue. Every part handed out
      before it is below that head when it is of the same sequence, and the
      head itself is behind what is left, since its queue holds its
      sequence's parts in order and no other queue holds any. */
  lemma TakeKeepsOrder(cfg: Config, s: State, ch: Value, h: seq<Value>)
    requires cfg.kind == Sequential && SeqInv(s) && AllBehind(h, s) && Increasing(h)
    ensures var (s2, r) := Take(cfg, s, ch);
      var h2 := if r.Ok? then h + [r.value] else h;
      SeqInv(s2) && AllBehind(h2, s2) && Increasing(h2)
  {
    NextKeepsInv(cfg, s, ch);
    SweepKeepsInv(s, cfg.route, 0);
    AllBehindAfterSweep(h, s, cfg.route);
    var (s1, st) := DispatchAll(cfg.kind, s, cfg.route);
    var (s2, r) := Take(cfg, s, ch);
    if st.Pass? && !OutOfBounds(s1, ch) && Names(s1, ch) && s1.outputs[ch.x.Floor] != [] {
      var n := ch.x.Floor;
      var q := s1.outputs[n];
      assert s2.outputs == s1.outputs[n := q[1..]];
      assert s2.seqIndex == s1.seqIndex;
      forall a | 0 <= a < |h| && Tracked(h[a])
        ensures Behind(h[a], s2)
      {
        ShiftKeepsBehind(h[a], s1, s2, n);
      }
      if r.Ok? {
        var z := q[0];
        var h2 := h + [z];
        assert QueueInv(q, n, s1);
        forall a, b | 0 <= a < b < |h2| && Tracked(h2[a]) && HasPart(h2[b]) && Key(h2[b]) == Key(h2[a])
          ensures Part(h2[a]) < Part(h2[b])
        {
          if b == |h| {
            assert Behind(h2[a], s1);
            assert h2[b] == s1.outputs[n][0];
          }
        }
        if Tracked(z) {
          HeadIsBehind(s1, s2, n);
        }
        assert AllBehind(h2, s2);
      }
    }
  }

  /** Removing the head of queue `n` keeps a part handed out behind. */
  lemma ShiftKeepsBehind(x: Value, s1: State, s2: State, n: int)
    requires Tracked(x) && Behind(x, s1)
    requires 0 <= n < |s1.outputs| && s1.outputs[n] != []
    requires s2.seqIndex == s1.seqIndex && s2.outputs == s1.outputs[n := s1.outputs[n][1..]]
    ensures Behind(x, s2)
  {
    forall c, j | 0 <= c < |s2.outputs| && 0 <= j < |s2.outputs[c]|
      && HasPart(s2.outputs[c][j]) && Key(s2.outputs[c][j]) == Key(x)
      ensures Part(x) < Part(s2.outputs[c][j])
    {
      if c == n {
        assert s2.outputs[c][j] == s1.outputs[c][j + 1];
      } else {
        assert s2.outputs[c][j] == s1.outputs[c][j];
      }
    }
  }

  /** The head of queue `n`, once handed out, is behind what is left. */
  lemma HeadIsBehind(s1: State, s2: State, n: int)
    requires SeqInv(s1) && 0 <= n < |s1.outputs| && s1.outputs[n] != [] && Tracked(s1.outputs[n][0])
    requires s2.seqIndex == s1.seqIndex && s2.outputs == s1.outputs[n := s1.outputs[n][1..]]
    ensures Behind(s1.outputs[n][0], s2)
  {
    var z := s1.outputs[n][0];
    assert QueueInv(s1.outputs[n], n, s1);
    forall c, j | 0 <= c < |s2.outputs| && 0 <= j < |s2.outputs[c]|
      && HasPart(s2.outputs[c][j]) && Key(s2.outputs[c][j]) == Key(z)
      ensures Part(z) < Part(s2.outputs[c][j])
    {
      var y := s2.outputs[c][j];
      if c == n {
        assert y == s1.outputs[n][j + 1];
      } else {
        assert false;
      }
    }
  }

  // ---------------------------------------------------------------------
  // Runs

  lemma {:induction false} RunKeepsOrder(cfg: Config, s: State, calls: seq<Call>, i: nat)
    requires cfg.kind == Sequential && SeqInv(s) && i <= |calls|
    ensures SeqInv(RunUpTo(cfg, s, calls, i).0)
    ensures AllBehind(Handed(cfg, s, calls, i), RunUpTo(cfg, s, calls, i).0)
    ensures Increasing(Handed(cfg, s, calls, i))
  {
    if i > 0 {
      RunKeepsOrder(cfg, s, calls, i - 1);
      var s1 := RunUpTo(cfg, s, calls, i - 1).0;
      var h := Handed(cfg, s, calls, i - 1);
      assert RunUpTo(cfg, s, calls, i).0 == Perform(cfg, s1, calls[i - 1]).0;
      match calls[i - 1]
      case Enq(text) =>
        EnqueueKeepsBehind(cfg, s1, text, h);
        EnqueueKeepsInv(cfg, s1, text);
      case NextOf(n) =>
        TakeKeepsOrder(cfg, s1, Num(n as real), h);
    }
  }

  /** The ordering promise of SequentialMessageService over a whole run:
      whatever calls a client makes on a new sequential service, with any
      transform and router, the parts of a sequence with a truthy id come
      out of next in strictly increasing order of part, over all channels
      together. */
  lemma PartsComeOutInOrder(cfg: Config, numOut: int, calls: seq<Call>)
    requires cfg.kind == Sequential
    ensures Increasing(Handed(cfg, Initial(numOut), calls, |calls|))
  {
    InitialSeqInv(numOut);
    RunKeepsOrder(cfg, Initial(numOut), calls, |calls|);
  }
}
