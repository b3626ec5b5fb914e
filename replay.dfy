/** A run of calls on a service, and the run of the 'mixed case with
    _sequence' test of test/test.js stated for any items that route the way
    that test's items do: ten enqueues, then next on channels 0, 1, 2 (five
    times), 3 and 4. */
module Replay {
  import opened Values
  import opened Fifo
  import opened Pipeline

  /** One call a client of the service makes. */
  datatype Call = Enq(text: string) | NextOf(channel: int)

  /** What a call gives back: the exception of enqueue, or what next
      returns. */
  datatype Outcome = Enqueued(status: Status) | Returned(reply: Result<string>)

  function Perform(cfg: Config, s: State, c: Call): (State, Outcome) {
    match c
    case Enq(text) =>
      var (s1, st) := Enqueue(cfg, s, text);
      (s1, Enqueued(st))
    case NextOf(n) =>
      var (s1, r) := Next(cfg, s, Num(n as real));
      (s1, Returned(r))
  }

  /** The first `i` calls, one after the other, on one service. */
  function RunUpTo(cfg: Config, s: State, calls: seq<Call>, i: nat): (r: (State, seq<Outcome>))
    requires i <= |calls|
    ensures |r.1| == i
  {
    if i == 0 then (s, [])
    else
      var (s1, outs) := RunUpTo(cfg, s, calls, i - 1);
      var (s2, o) := Perform(cfg, s1, calls[i - 1]);
      (s2, outs + [o])
  }

  function Run(cfg: Config, s: State, calls: seq<Call>): (State, seq<Outcome>) {
    RunUpTo(cfg, s, calls, |calls|)
  }

  // ---------------------------------------------------------------------
  // Single steps

  lemma RunStep(cfg: Config, s: State, calls: seq<Call>, i: nat, mid: State, outs: seq<Outcome>)
    requires i < |calls| && RunUpTo(cfg, s, calls, i) == (mid, outs)
    ensures RunUpTo(cfg, s, calls, i + 1) == (Perform(cfg, mid, calls[i]).0, outs + [Perform(cfg, mid, calls[i]).1])
  {
  }

  /** enqueue of a text that decodes to a non-null value the transform
      accepts, on a service with an empty input queue: the transformed value
      joins the staging queue and the sweep runs. */
  lemma EnqueueStep(cfg: Config, s: State, text: string, v: Value, x: Value)
    requires s.input == [] && cfg.json.parse(text) == Some(v) && v != Null && cfg.transform(v) == Ok(x)
    ensures Enqueue(cfg, s, text) == DispatchAll(cfg.kind, s.(staging := s.staging + [x]), cfg.route)
  {
    assert Shift(s.input + [v]) == (Ok(v), []);
  }

  /** next(n) after a sweep that leaves a non-null item at the head of
      output queue `n`: that item is shifted off and returned as JSON. */
  lemma NextStep(cfg: Config, s: State, n: int, s1: State)
    requires DispatchAll(cfg.kind, s, cfg.route) == (s1, Pass)
    requires 0 <= n < |s1.outputs| && s1.outputs[n] != [] && s1.outputs[n][0] != Null
    ensures Next(cfg, s, Num(n as real)) ==
      (s1.(outputs := s1.outputs[n := s1.outputs[n][1..]]), Ok(cfg.json.stringify(s1.outputs[n][0])))
  {
    assert IsIntegral(n as real);
    assert (n as real).Floor == n;
  }

  /** The sweep ends once its index reaches the staging queue's length. */
  lemma SweepEnd(s: State, route: Router, i: nat)
    requires |s.staging| <= i
    ensures Sweep(Sequential, s, route, i) == (s, Pass)
  {
  }

  /** One iteration that moves a sequenced item not yet due to the back. */
  lemma HoldStep(s: State, route: Router, i: nat, t: State)
    requires i < |s.staging| && s.staging[0] != Null
    requires Sequenced(s.staging[0]) && IsInteger(Get(s.staging[0], "_part")) && !Releasable(s, s.staging[0])
    requires t == s.(staging := s.staging[1..] + [s.staging[0]])
    ensures Sweep(Sequential, s, route, i) == Sweep(Sequential, t, route, i + 1)
  {
  }

  /** One iteration that delivers an item outside any sequence. */
  lemma DeliverStep(s: State, route: Router, i: nat, c: int, t: State)
    requires i < |s.staging| && s.staging[0] != Null && !Sequenced(s.staging[0])
    requires route(s.staging[0]) == Ok(c) && InRange(s, c)
    requires t == s.(staging := s.staging[1..], outputs := s.outputs[c := s.outputs[c] + [s.staging[0]]])
    ensures Sweep(Sequential, s, route, i) == Sweep(Sequential, t, route, i + 1)
  {
  }

  /** One iteration that releases the part that is due, through the route
      cached for its sequence. */
  lemma ReleaseStep(s: State, route: Router, i: nat, t: State)
    requires i < |s.staging| && s.staging[0] != Null
    requires Truthy(SeqId(s.staging[0])) && IsInteger(Get(s.staging[0], "_part")) && Releasable(s, s.staging[0])
    requires SeqId(s.staging[0]).value in s.seqRoute && InRange(s, s.seqRoute[SeqId(s.staging[0]).value])
    requires var x := s.staging[0];
      var c := s.seqRoute[SeqId(x).value];
      t == s.(staging := s.staging[1..], seqIndex := s.seqIndex[SeqId(x).value := Part(x)],
              outputs := s.outputs[c := s.outputs[c] + [x]])
    ensures Sweep(Sequential, s, route, i) == Sweep(Sequential, t, route, i + 1)
  {
    var x := s.staging[0];
    var s1 := s.(staging := s.staging[1..], seqIndex := s.seqIndex[SeqId(x).value := Part(x)]);
    assert SeqDispatchOne(s, route) == RouteItem(s1, x, route);
    assert RouteItem(s1, x, route) == Place(s1, x, s.seqRoute[SeqId(x).value]);
  }

  /** One iteration that releases the first part of a sequence, routing it
      and caching its route. */
  lemma ReleaseFreshStep(s: State, route: Router, i: nat, c: int, t: State)
    requires i < |s.staging| && s.staging[0] != Null
    requires Truthy(SeqId(s.staging[0])) && IsInteger(Get(s.staging[0], "_part")) && Releasable(s, s.staging[0])
    requires SeqId(s.staging[0]).value !in s.seqRoute && route(s.staging[0]) == Ok(c) && InRange(s, c)
    requires var x := s.staging[0];
      t == s.(staging := s.staging[1..], seqIndex := s.seqIndex[SeqId(x).value := Part(x)],
              seqRoute := s.seqRoute[SeqId(x).value := c], outputs := s.outputs[c := s.outputs[c] + [x]])
    ensures Sweep(Sequential, s, route, i) == Sweep(Sequential, t, route, i + 1)
  {
    var x := s.staging[0];
    var s1 := s.(staging := s.staging[1..], seqIndex := s.seqIndex[SeqId(x).value := Part(x)]);
    assert SeqDispatchOne(s, route) == RouteItem(s1, x, route);
    assert RouteItem(s1, x, route) == Place(s1.(seqRoute := s.seqRoute[SeqId(x).value := c]), x, c);
  }

  // ---------------------------------------------------------------------
  // The mixed test

  /** An item of the sequence `id` with the given integer `_part`. */
  predicate InSeq(x: Value, id: Value, part: int) {
    x != Null && Truthy(Some(id)) && SeqId(x) == Some(id) && IsInteger(Get(x, "_part")) && Part(x) == part
  }

  /** An item of the sequence `id` that dispatchOne holds back while the
      sequence's index is as `index` says. */
  predicate Waits(x: Value, id: Value, part: int, index: map<Value, int>) {
    InSeq(x, id, part) && (if id in index then part != index[id] + 1 else part != 0)
  }

  /** An item outside any sequence that the router sends to queue `c`. */
  predicate RoutedTo(route: Router, x: Value, c: int) {
    x != Null && !Sequenced(x) && route(x) == Ok(c)
  }

  /** What routing needs to know of the ten transformed items of the test:
      the `_special` item goes to 0; parts 5, 3, 2, 0 and 1 of one sequence,
      part 0 routed to 2; then items routed to 2, 3, 4 and 1. */
  predicate MixedItems(route: Router, xs: seq<Value>, id: Value) {
    && |xs| == 10
    && RoutedTo(route, xs[0], 0)
    && InSeq(xs[1], id, 5) && InSeq(xs[2], id, 3) && InSeq(xs[3], id, 2)
    && InSeq(xs[4], id, 0) && route(xs[4]) == Ok(2)
    && InSeq(xs[5], id, 1)
    && RoutedTo(route, xs[6], 2) && RoutedTo(route, xs[7], 3) && RoutedTo(route, xs[8], 4) && RoutedTo(route, xs[9], 1)
  }

  /** Text `k` decodes to a non-null value that the transform turns into
      item `k`. */
  predicate Decoded(cfg: Config, texts: seq<string>, xs: seq<Value>) {
    && |texts| == |xs|
    && forall k :: 0 <= k < |texts| ==> Accepted(cfg, texts[k], xs[k])
  }

  predicate Accepted(cfg: Config, text: string, x: Value) {
    cfg.json.parse(text).Some? && cfg.json.parse(text).value != Null
    && cfg.transform(cfg.json.parse(text).value) == Ok(x)
  }

  function MixedCalls(texts: seq<string>): seq<Call>
    requires |texts| == 10
  {
    [Enq(texts[0]), Enq(texts[1]), Enq(texts[2]), Enq(texts[3]), Enq(texts[4]),
     Enq(texts[5]), Enq(texts[6]), Enq(texts[7]), Enq(texts[8]), Enq(texts[9]),
     NextOf(0), NextOf(1), NextOf(2), NextOf(2), NextOf(2), NextOf(2), NextOf(2), NextOf(3), NextOf(4)]
  }

  /** What the test expects: every enqueue passes; channel 0 gives the
      `_special` item, channel 1 the hashed one, channel 2 parts 0, 1 and 2,
      the reversed message and part 3, channel 3 the integer message and
      channel 4 the plain one. */
  function MixedOutcomes(cfg: Config, xs: seq<Value>): seq<Outcome>
    requires |xs| == 10
  {
    var out := (x: Value) => Returned(Ok(cfg.json.stringify(x)));
    seq(10, _ => Enqueued(Pass))
      + [out(xs[0]), out(xs[9]), out(xs[4]), out(xs[5]), out(xs[3]), out(xs[6]), out(xs[2]), out(xs[7]), out(xs[8])]
  }

  predicate MixedSetup(cfg: Config, texts: seq<string>, xs: seq<Value>, id: Value) {
    cfg.kind == Sequential && MixedItems(cfg.route, xs, id) && Decoded(cfg, texts, xs)
  }

  /** The test's run: every enqueue passes, the nine calls to next return
      the items the test expects in the order it expects them, and part 5,
      whose part 4 never comes, is still waiting in the staging queue, its
      sequence at index 3 and routed to 2, while every output queue is
      empty again. */
  lemma MixedRun(cfg: Config, texts: seq<string>, xs: seq<Value>, id: Value)
    requires MixedSetup(cfg, texts, xs, id)
    ensures var (s, outs) := Run(cfg, Initial(5), MixedCalls(texts));
      && outs == MixedOutcomes(cfg, xs)
      && s.staging == [xs[1]] && s.seqIndex == map[id := 3] && s.seqRoute == map[id := 2]
      && |s.outputs| == 5 && forall c :: 0 <= c < 5 ==> s.outputs[c] == []
  {
    assert Accepted(cfg, texts[0], xs[0]) && Accepted(cfg, texts[1], xs[1]) && Accepted(cfg, texts[2], xs[2]);
    assert Accepted(cfg, texts[3], xs[3]) && Accepted(cfg, texts[4], xs[4]) && Accepted(cfg, texts[5], xs[5]);
    assert Accepted(cfg, texts[6], xs[6]) && Accepted(cfg, texts[7], xs[7]) && Accepted(cfg, texts[8], xs[8]);
    assert Accepted(cfg, texts[9], xs[9]);
    MixedEnqueues(cfg, texts, xs, id);
    MixedNexts(cfg, texts, xs, id);
    RunIsFinal(cfg, texts, xs, id);
  }

  lemma RunIsFinal(cfg: Config, texts: seq<string>, xs: seq<Value>, id: Value)
    requires |texts| == 10 && |xs| == 10
    requires RunUpTo(cfg, Initial(5), MixedCalls(texts), 19) == (Final(xs, id), MixedOutcomes(cfg, xs)[..19])
    ensures var (s, outs) := Run(cfg, Initial(5), MixedCalls(texts));
      && outs == MixedOutcomes(cfg, xs)
      && s.staging == [xs[1]] && s.seqIndex == map[id := 3] && s.seqRoute == map[id := 2]
      && |s.outputs| == 5 && forall c :: 0 <= c < 5 ==> s.outputs[c] == []
  {
    assert MixedOutcomes(cfg, xs)[..19] == MixedOutcomes(cfg, xs);
  }

  /** The ten enqueues. */
  lemma MixedEnqueues(cfg: Config, texts: seq<string>, xs: seq<Value>, id: Value)
    requires cfg.kind == Sequential && |texts| == 10 && MixedItems(cfg.route, xs, id)
    requires Accepted(cfg, texts[0], xs[0]) && Accepted(cfg, texts[1], xs[1]) && Accepted(cfg, texts[2], xs[2])
    requires Accepted(cfg, texts[3], xs[3]) && Accepted(cfg, texts[4], xs[4]) && Accepted(cfg, texts[5], xs[5])
    requires Accepted(cfg, texts[6], xs[6]) && Accepted(cfg, texts[7], xs[7]) && Accepted(cfg, texts[8], xs[8])
    requires Accepted(cfg, texts[9], xs[9])
    ensures RunUpTo(cfg, Initial(5), MixedCalls(texts), 10) == (AfterEnqueues(xs, id), MixedOutcomes(cfg, xs)[..10])
  {
    Call0(cfg, texts, xs, id);
    Call1(cfg, texts, xs, id);
    Call2(cfg, texts, xs, id);
    Call3(cfg, texts, xs, id);
    Call4(cfg, texts, xs, id);
    Call5(cfg, texts, xs, id);
    Call6(cfg, texts, xs, id);
    Call7(cfg, texts, xs, id);
    Call8(cfg, texts, xs, id);
    Call9(cfg, texts, xs, id);
  }

  /** The nine calls of next. */
  lemma MixedNexts(cfg: Config, texts: seq<string>, xs: seq<Value>, id: Value)
    requires cfg.kind == Sequential && |texts| == 10 && MixedItems(cfg.route, xs, id)
    requires RunUpTo(cfg, Initial(5), MixedCalls(texts), 10) == (AfterEnqueues(xs, id), MixedOutcomes(cfg, xs)[..10])
    ensures RunUpTo(cfg, Initial(5), MixedCalls(texts), 19) == (Final(xs, id), MixedOutcomes(cfg, xs)[..19])
  {
    Call10(cfg, texts, xs, id);
    Call11(cfg, texts, xs, id);
    Call12(cfg, texts, xs, id);
    Call13(cfg, texts, xs, id);
    Call14(cfg, texts, xs, id);
    Call15(cfg, texts, xs, id);
    Call16(cfg, texts, xs, id);
    Call17(cfg, texts, xs, id);
    Call18(cfg, texts, xs, id);
  }

  /** After the ten enqueues: part 5 and the last item staged. */
  function AfterEnqueues(xs: seq<Value>, id: Value): State
    requires |xs| == 10
  {
    State([], [xs[9], xs[1]], [[xs[0]], [], [xs[4], xs[5], xs[3], xs[6], xs[2]], [xs[7]], [xs[8]]], map[id := 3], map[id := 2])
  }

  /** The state the test ends in. */
  function Final(xs: seq<Value>, id: Value): State
    requires |xs| == 10
  {
    State([], [xs[1]], [[], [], [], [], []], map[id := 3], map[id := 2])
  }

  // ---------------------------------------------------------------------
  // The sweeps of the mixed test, over any queue contents

  lemma SweepDeliverOne(route: Router, x0: Value, a: seq<Value>, b: seq<Value>, c: seq<Value>, d: seq<Value>, f: seq<Value>, m1: map<Value, int>, m2: map<Value, int>)
    requires RoutedTo(route, x0, 0)
    ensures Sweep(Sequential, State([], [x0], [a, b, c, d, f], m1, m2), route, 0) == (State([], [], [a + [x0], b, c, d, f], m1, m2), Pass)
  {
    var t := State([], [], [a + [x0], b, c, d, f], m1, m2);
    DeliverStep(State([], [x0], [a, b, c, d, f], m1, m2), route, 0, 0, t);
    SweepEnd(t, route, 1);
  }

  /** Part 5 alone goes round once; nothing changes. */
  lemma SweepHoldOne(route: Router, id: Value, x1: Value, qs: seq<seq<Value>>, m1: map<Value, int>, m2: map<Value, int>)
    requires Waits(x1, id, 5, m1)
    ensures Sweep(Sequential, State([], [x1], qs, m1, m2), route, 0) == (State([], [x1], qs, m1, m2), Pass)
  {
    var s := State([], [x1], qs, m1, m2);
    assert [x1][1..] + [x1] == [x1];
    HoldStep(s, route, 0, s);
    SweepEnd(s, route, 1);
  }

  lemma SweepHoldTwo(route: Router, id: Value, x1: Value, x2: Value, qs: seq<seq<Value>>, m1: map<Value, int>, m2: map<Value, int>)
    requires Waits(x1, id, 5, m1) && Waits(x2, id, 3, m1)
    ensures Sweep(Sequential, State([], [x1, x2], qs, m1, m2), route, 0) == (State([], [x1, x2], qs, m1, m2), Pass)
  {
    var s := State([], [x1, x2], qs, m1, m2);
    var a := s.(staging := [x2, x1]);
    assert [x1, x2][1..] + [x1] == [x2, x1];
    assert [x2, x1][1..] + [x2] == [x1, x2];
    HoldStep(s, route, 0, a);
    HoldStep(a, route, 1, s);
    SweepEnd(s, route, 2);
  }

  lemma SweepHoldThree(route: Router, id: Value, x1: Value, x2: Value, x3: Value, qs: seq<seq<Value>>, m1: map<Value, int>, m2: map<Value, int>)
    requires Waits(x1, id, 5, m1) && Waits(x2, id, 3, m1) && Waits(x3, id, 2, m1)
    ensures Sweep(Sequential, State([], [x1, x2, x3], qs, m1, m2), route, 0) == (State([], [x1, x2, x3], qs, m1, m2), Pass)
  {
    var s := State([], [x1, x2, x3], qs, m1, m2);
    var a := s.(staging := [x2, x3, x1]);
    var b := s.(staging := [x3, x1, x2]);
    assert [x1, x2, x3][1..] + [x1] == [x2, x3, x1];
    assert [x2, x3, x1][1..] + [x2] == [x3, x1, x2];
    assert [x3, x1, x2][1..] + [x3] == [x1, x2, x3];
    HoldStep(s, route, 0, a);
    HoldStep(a, route, 1, b);
    HoldStep(b, route, 2, s);
    SweepEnd(s, route, 3);
  }

  /** Part 0 arrives: parts 5, 3 and 2 wait, part 0 is routed to 2 and its
      route is cached. */
  lemma SweepPartZero(route: Router, id: Value, x1: Value, x2: Value, x3: Value, x4: Value,
                      a: seq<Value>, b: seq<Value>, c: seq<Value>, d: seq<Value>, f: seq<Value>, m1: map<Value, int>, m2: map<Value, int>)
    requires Waits(x1, id, 5, m1) && Waits(x2, id, 3, m1) && Waits(x3, id, 2, m1)
    requires InSeq(x4, id, 0) && route(x4) == Ok(2) && id !in m1 && id !in m2
    ensures Sweep(Sequential, State([], [x1, x2, x3, x4], [a, b, c, d, f], m1, m2), route, 0)
         == (State([], [x1, x2, x3], [a, b, c + [x4], d, f], m1[id := 0], m2[id := 2]), Pass)
  {
    var qs := [a, b, c, d, f];
    var s := State([], [x1, x2, x3, x4], qs, m1, m2);
    var s1 := s.(staging := [x2, x3, x4, x1]);
    var s2 := s.(staging := [x3, x4, x1, x2]);
    var s3 := s.(staging := [x4, x1, x2, x3]);
    var t := State([], [x1, x2, x3], [a, b, c + [x4], d, f], m1[id := 0], m2[id := 2]);
    assert [x1, x2, x3, x4][1..] + [x1] == [x2, x3, x4, x1];
    assert [x2, x3, x4, x1][1..] + [x2] == [x3, x4, x1, x2];
    assert [x3, x4, x1, x2][1..] + [x3] == [x4, x1, x2, x3];
    HoldStep(s, route, 0, s1);
    HoldStep(s1, route, 1, s2);
    HoldStep(s2, route, 2, s3);
    assert [x4, x1, x2, x3][1..] == [x1, x2, x3];
    assert qs[2 := c + [x4]] == [a, b, c + [x4], d, f];
    ReleaseFreshStep(s3, route, 3, 2, t);
    SweepEnd(t, route, 4);
  }

  /** Part 1 arrives and follows part 0 through the cached route. */
  lemma SweepPartOne(route: Router, id: Value, x1: Value, x2: Value, x3: Value, x5: Value,
                     a: seq<Value>, b: seq<Value>, c: seq<Value>, d: seq<Value>, f: seq<Value>, m1: map<Value, int>, m2: map<Value, int>)
    requires Waits(x1, id, 5, m1) && Waits(x2, id, 3, m1) && Waits(x3, id, 2, m1)
    requires InSeq(x5, id, 1) && id in m1 && m1[id] == 0 && id in m2 && m2[id] == 2
    ensures Sweep(Sequential, State([], [x1, x2, x3, x5], [a, b, c, d, f], m1, m2), route, 0)
         == (State([], [x1, x2, x3], [a, b, c + [x5], d, f], m1[id := 1], m2), Pass)
  {
    var qs := [a, b, c, d, f];
    var s := State([], [x1, x2, x3, x5], qs, m1, m2);
    var s1 := s.(staging := [x2, x3, x5, x1]);
    var s2 := s.(staging := [x3, x5, x1, x2]);
    var s3 := s.(staging := [x5, x1, x2, x3]);
    var t := State([], [x1, x2, x3], [a, b, c + [x5], d, f], m1[id := 1], m2);
    assert [x1, x2, x3, x5][1..] + [x1] == [x2, x3, x5, x1];
    assert [x2, x3, x5, x1][1..] + [x2] == [x3, x5, x1, x2];
    assert [x3, x5, x1, x2][1..] + [x3] == [x5, x1, x2, x3];
    HoldStep(s, route, 0, s1);
    HoldStep(s1, route, 1, s2);
    HoldStep(s2, route, 2, s3);
    assert [x5, x1, x2, x3][1..] == [x1, x2, x3];
    assert qs[2 := c + [x5]] == [a, b, c + [x5], d, f];
    ReleaseStep(s3, route, 3, t);
    SweepEnd(t, route, 4);
  }

  /** The next item releases part 2 on its way; it stays staged itself, as
      the sweep stops at the length it has reached. */
  lemma SweepPartTwo(route: Router, id: Value, x1: Value, x2: Value, x3: Value, x6: Value,
                     a: seq<Value>, b: seq<Value>, c: seq<Value>, d: seq<Value>, f: seq<Value>, m1: map<Value, int>, m2: map<Value, int>)
    requires Waits(x1, id, 5, m1) && Waits(x2, id, 3, m1)
    requires InSeq(x3, id, 2) && id in m1 && m1[id] == 1 && id in m2 && m2[id] == 2
    ensures Sweep(Sequential, State([], [x1, x2, x3, x6], [a, b, c, d, f], m1, m2), route, 0)
         == (State([], [x6, x1, x2], [a, b, c + [x3], d, f], m1[id := 2], m2), Pass)
  {
    var qs := [a, b, c, d, f];
    var s := State([], [x1, x2, x3, x6], qs, m1, m2);
    var s1 := s.(staging := [x2, x3, x6, x1]);
    var s2 := s.(staging := [x3, x6, x1, x2]);
    var t := State([], [x6, x1, x2], [a, b, c + [x3], d, f], m1[id := 2], m2);
    assert [x1, x2, x3, x6][1..] + [x1] == [x2, x3, x6, x1];
    assert [x2, x3, x6, x1][1..] + [x2] == [x3, x6, x1, x2];
    HoldStep(s, route, 0, s1);
    HoldStep(s1, route, 1, s2);
    assert [x3, x6, x1, x2][1..] == [x6, x1, x2];
    assert qs[2 := c + [x3]] == [a, b, c + [x3], d, f];
    ReleaseStep(s2, route, 2, t);
    SweepEnd(t, route, 3);
  }

  /** The item left staged goes to 2, then part 3 follows it. */
  lemma SweepPartThree(route: Router, id: Value, x6: Value, x1: Value, x2: Value, x7: Value,
                       a: seq<Value>, b: seq<Value>, c: seq<Value>, d: seq<Value>, f: seq<Value>, m1: map<Value, int>, m2: map<Value, int>)
    requires RoutedTo(route, x6, 2) && Waits(x1, id, 5, m1)
    requires InSeq(x2, id, 3) && id in m1 && m1[id] == 2 && id in m2 && m2[id] == 2
    ensures Sweep(Sequential, State([], [x6, x1, x2, x7], [a, b, c, d, f], m1, m2), route, 0)
         == (State([], [x7, x1], [a, b, c + [x6] + [x2], d, f], m1[id := 3], m2), Pass)
  {
    var qs := [a, b, c, d, f];
    var s := State([], [x6, x1, x2, x7], qs, m1, m2);
    var s1 := State([], [x1, x2, x7], [a, b, c + [x6], d, f], m1, m2);
    var s2 := s1.(staging := [x2, x7, x1]);
    var t := State([], [x7, x1], [a, b, c + [x6] + [x2], d, f], m1[id := 3], m2);
    assert [x6, x1, x2, x7][1..] == [x1, x2, x7];
    assert qs[2 := c + [x6]] == [a, b, c + [x6], d, f];
    DeliverStep(s, route, 0, 2, s1);
    assert [x1, x2, x7][1..] + [x1] == [x2, x7, x1];
    HoldStep(s1, route, 1, s2);
    assert [x2, x7, x1][1..] == [x7, x1];
    assert s2.outputs[2 := c + [x6] + [x2]] == t.outputs;
    ReleaseStep(s2, route, 2, t);
    SweepEnd(t, route, 3);
  }

  /** An item routed to `c` ahead of part 5, which goes round once. */
  lemma SweepDeliverAhead(route: Router, id: Value, x: Value, x1: Value, y: Value, qs: seq<seq<Value>>, c: int,
                          m1: map<Value, int>, m2: map<Value, int>)
    requires RoutedTo(route, x, c) && 0 <= c < |qs| && Waits(x1, id, 5, m1)
    ensures Sweep(Sequential, State([], [x, x1, y], qs, m1, m2), route, 0)
         == (State([], [y, x1], qs[c := qs[c] + [x]], m1, m2), Pass)
  {
    var s := State([], [x, x1, y], qs, m1, m2);
    var s1 := State([], [x1, y], qs[c := qs[c] + [x]], m1, m2);
    var t := s1.(staging := [y, x1]);
    assert [x, x1, y][1..] == [x1, y];
    DeliverStep(s, route, 0, c, s1);
    assert [x1, y][1..] + [x1] == [y, x1];
    HoldStep(s1, route, 1, t);
    SweepEnd(t, route, 2);
  }

  /** An item routed to 1 ahead of part 5, where the sweep stops. */
  lemma SweepDeliverLast(route: Router, x: Value, x1: Value, qs: seq<seq<Value>>, m1: map<Value, int>, m2: map<Value, int>)
    requires RoutedTo(route, x, 1) && 1 < |qs|
    ensures Sweep(Sequential, State([], [x, x1], qs, m1, m2), route, 0)
         == (State([], [x1], qs[1 := qs[1] + [x]], m1, m2), Pass)
  {
    var t := State([], [x1], qs[1 := qs[1] + [x]], m1, m2);
    assert [x, x1][1..] == [x1];
    DeliverStep(State([], [x, x1], qs, m1, m2), route, 0, 1, t);
    SweepEnd(t, route, 1);
  }

  // ---------------------------------------------------------------------
  // The calls of the mixed test

  /** enqueue, as the sweep it ends in. */
  lemma EnqueueSweep(cfg: Config, s: State, text: string, x: Value, staged: seq<Value>, t: State)
    requires cfg.kind == Sequential && s.input == [] && Accepted(cfg, text, x)
    requires staged == s.staging + [x] && Sweep(Sequential, s.(staging := staged), cfg.route, 0) == (t, Pass)
    ensures Perform(cfg, s, Enq(text)) == (t, Enqueued(Pass))
  {
    EnqueueStep(cfg, s, text, cfg.json.parse(text).value, x);
  }

  /** next(n) once part 5 is all that is staged. */
  lemma NextAfterHold(cfg: Config, id: Value, x1: Value, qs: seq<seq<Value>>, m1: map<Value, int>, m2: map<Value, int>, n: int, left: seq<seq<Value>>)
    requires cfg.kind == Sequential && Waits(x1, id, 5, m1)
    requires 0 <= n < |qs| && qs[n] != [] && qs[n][0] != Null && left == qs[n := qs[n][1..]]
    ensures Perform(cfg, State([], [x1], qs, m1, m2), NextOf(n))
         == (State([], [x1], left, m1, m2), Returned(Ok(cfg.json.stringify(qs[n][0]))))
  {
    var s := State([], [x1], qs, m1, m2);
    SweepHoldOne(cfg.route, id, x1, qs, m1, m2);
    NextStep(cfg, s, n, s);
  }

  lemma Snoc<T>(s: seq<T>, k: nat)
    requires k < |s|
    ensures s[..k] + [s[k]] == s[..k + 1]
  {
  }

  lemma RunUpToZero(cfg: Config, s: State, calls: seq<Call>)
    ensures RunUpTo(cfg, s, calls, 0) == (s, [])
  {
  }

  /** Enqueue `k` of the test as one more step of the run. */
  lemma EnqOn(cfg: Config, texts: seq<string>, xs: seq<Value>, k: nat, s: State, staged: seq<Value>, t: State)
    requires cfg.kind == Sequential && |texts| == 10 && |xs| == 10 && k < 10 && s.input == []
    requires Accepted(cfg, texts[k], xs[k]) && MixedCalls(texts)[k] == Enq(texts[k]) && MixedOutcomes(cfg, xs)[k] == Enqueued(Pass)
    requires staged == s.staging + [xs[k]] && Sweep(Sequential, s.(staging := staged), cfg.route, 0) == (t, Pass)
    requires RunUpTo(cfg, Initial(5), MixedCalls(texts), k) == (s, MixedOutcomes(cfg, xs)[..k])
    ensures RunUpTo(cfg, Initial(5), MixedCalls(texts), k + 1) == (t, MixedOutcomes(cfg, xs)[..k + 1])
  {
    EnqueueSweep(cfg, s, texts[k], xs[k], staged, t);
    RunStep(cfg, Initial(5), MixedCalls(texts), k, s, MixedOutcomes(cfg, xs)[..k]);
    Snoc(MixedOutcomes(cfg, xs), k);
  }

  /** Call `k` of the test is next(n) on a channel whose head is `x`. */
  lemma NextOn(cfg: Config, texts: seq<string>, xs: seq<Value>, id: Value, k: nat, n: int,
               qs: seq<seq<Value>>, left: seq<seq<Value>>, m1: map<Value, int>, m2: map<Value, int>, x: Value)
    requires cfg.kind == Sequential && |texts| == 10 && |xs| == 10 && 10 <= k < 19
    requires MixedCalls(texts)[k] == NextOf(n) && MixedOutcomes(cfg, xs)[k] == Returned(Ok(cfg.json.stringify(x)))
    requires Waits(xs[1], id, 5, m1)
    requires 0 <= n < |qs| && qs[n] != [] && qs[n][0] == x && x != Null && left == qs[n := qs[n][1..]]
    requires RunUpTo(cfg, Initial(5), MixedCalls(texts), k) == (State([], [xs[1]], qs, m1, m2), MixedOutcomes(cfg, xs)[..k])
    ensures RunUpTo(cfg, Initial(5), MixedCalls(texts), k + 1) == (State([], [xs[1]], left, m1, m2), MixedOutcomes(cfg, xs)[..k + 1])
  {
    NextAfterHold(cfg, id, xs[1], qs, m1, m2, n, left);
    RunStep(cfg, Initial(5), MixedCalls(texts), k, State([], [xs[1]], qs, m1, m2), MixedOutcomes(cfg, xs)[..k]);
    Snoc(MixedOutcomes(cfg, xs), k);
  }

  /** next(0) while the item routed to 1 is still staged ahead of part 5. */
  lemma NextZero(cfg: Config, x0: Value, x9: Value, x1: Value, b: seq<Value>, c: seq<Value>, d: seq<Value>, f: seq<Value>,
                 m1: map<Value, int>, m2: map<Value, int>)
    requires cfg.kind == Sequential && RoutedTo(cfg.route, x9, 1) && x0 != Null
    ensures Perform(cfg, State([], [x9, x1], [[x0], b, c, d, f], m1, m2), NextOf(0))
         == (State([], [x1], [[], b + [x9], c, d, f], m1, m2), Returned(Ok(cfg.json.stringify(x0))))
  {
    var qs := [[x0], b, c, d, f];
    var swept := [[x0], b + [x9], c, d, f];
    assert qs[1 := qs[1] + [x9]] == swept;
    SweepDeliverLast(cfg.route, x9, x1, qs, m1, m2);
    NextStep(cfg, State([], [x9, x1], qs, m1, m2), 0, State([], [x1], swept, m1, m2));
    assert [x0][1..] == [];
    assert swept[0 := swept[0][1..]] == [[], b + [x9], c, d, f];
  }

  /** Enqueue 0: the `_special` item goes to 0. */
  lemma Call0(cfg: Config, texts: seq<string>, xs: seq<Value>, id: Value)
    requires cfg.kind == Sequential && |texts| == 10 && |xs| == 10
    requires Accepted(cfg, texts[0], xs[0])
    requires RoutedTo(cfg.route, xs[0], 0)
    ensures RunUpTo(cfg, Initial(5), MixedCalls(texts), 1) == (State([], [], [[xs[0]], [], [], [], []], map[], map[]), MixedOutcomes(cfg, xs)[..1])
  {
    var s, t := State([], [], [[], [], [], [], []], map[], map[]), State([], [], [[xs[0]], [], [], [], []], map[], map[]);
    var e: seq<Value> := [];
    assert Initial(5) == s;
    assert e + [xs[0]] == [xs[0]];
    SweepDeliverOne(cfg.route, xs[0], e, e, e, e, e, map[], map[]);
    RunUpToZero(cfg, Initial(5), MixedCalls(texts));
    assert MixedCalls(texts)[0] == Enq(texts[0]) && MixedOutcomes(cfg, xs)[0] == Enqueued(Pass);
    EnqOn(cfg, texts, xs, 0, s, [xs[0]], t);
  }

  /** Enqueue 1: part 5 waits. */
  lemma Call1(cfg: Config, texts: seq<string>, xs: seq<Value>, id: Value)
    requires cfg.kind == Sequential && |texts| == 10 && |xs| == 10
    requires Accepted(cfg, texts[1], xs[1])
    requires InSeq(xs[1], id, 5)
    requires RunUpTo(cfg, Initial(5), MixedCalls(texts), 1) == (State([], [], [[xs[0]], [], [], [], []], map[], map[]), MixedOutcomes(cfg, xs)[..1])
    ensures RunUpTo(cfg, Initial(5), MixedCalls(texts), 2) == (State([], [xs[1]], [[xs[0]], [], [], [], []], map[], map[]), MixedOutcomes(cfg, xs)[..2])
  {
    var s, t := State([], [], [[xs[0]], [], [], [], []], map[], map[]), State([], [xs[1]], [[xs[0]], [], [], [], []], map[], map[]);
    SweepHoldOne(cfg.route, id, xs[1], [[xs[0]], [], [], [], []], map[], map[]);
    assert MixedCalls(texts)[1] == Enq(texts[1]) && MixedOutcomes(cfg, xs)[1] == Enqueued(Pass);
    EnqOn(cfg, texts, xs, 1, s, [xs[1]], t);
  }

  /** Enqueue 2: parts 5 and 3 wait. */
  lemma Call2(cfg: Config, texts: seq<string>, xs: seq<Value>, id: Value)
    requires cfg.kind == Sequential && |texts| == 10 && |xs| == 10
    requires Accepted(cfg, texts[2], xs[2])
    requires InSeq(xs[1], id, 5) && InSeq(xs[2], id, 3)
    requires RunUpTo(cfg, Initial(5), MixedCalls(texts), 2) == (State([], [xs[1]], [[xs[0]], [], [], [], []], map[], map[]), MixedOutcomes(cfg, xs)[..2])
    ensures RunUpTo(cfg, Initial(5), MixedCalls(texts), 3) == (State([], [xs[1], xs[2]], [[xs[0]], [], [], [], []], map[], map[]), MixedOutcomes(cfg, xs)[..3])
  {
    var s, t := State([], [xs[1]], [[xs[0]], [], [], [], []], map[], map[]), State([], [xs[1], xs[2]], [[xs[0]], [], [], [], []], map[], map[]);
    SweepHoldTwo(cfg.route, id, xs[1], xs[2], [[xs[0]], [], [], [], []], map[], map[]);
    assert MixedCalls(texts)[2] == Enq(texts[2]) && MixedOutcomes(cfg, xs)[2] == Enqueued(Pass);
    EnqOn(cfg, texts, xs, 2, s, [xs[1], xs[2]], t);
  }

  /** Enqueue 3: parts 5, 3 and 2 wait. */
  lemma Call3(cfg: Config, texts: seq<string>, xs: seq<Value>, id: Value)
    requires cfg.kind == Sequential && |texts| == 10 && |xs| == 10
    requires Accepted(cfg, texts[3], xs[3])
    requires InSeq(xs[1], id, 5) && InSeq(xs[2], id, 3) && InSeq(xs[3], id, 2)
    requires RunUpTo(cfg, Initial(5), MixedCalls(texts), 3) == (State([], [xs[1], xs[2]], [[xs[0]], [], [], [], []], map[], map[]), MixedOutcomes(cfg, xs)[..3])
    ensures RunUpTo(cfg, Initial(5), MixedCalls(texts), 4) == (State([], [xs[1], xs[2], xs[3]], [[xs[0]], [], [], [], []], map[], map[]), MixedOutcomes(cfg, xs)[..4])
  {
    var s, t := State([], [xs[1], xs[2]], [[xs[0]], [], [], [], []], map[], map[]), State([], [xs[1], xs[2], xs[3]], [[xs[0]], [], [], [], []], map[], map[]);
    assert [xs[1], xs[2]] + [xs[3]] == [xs[1], xs[2], xs[3]];
    SweepHoldThree(cfg.route, id, xs[1], xs[2], xs[3], [[xs[0]], [], [], [], []], map[], map[]);
    assert MixedCalls(texts)[3] == Enq(texts[3]) && MixedOutcomes(cfg, xs)[3] == Enqueued(Pass);
    EnqOn(cfg, texts, xs, 3, s, [xs[1], xs[2], xs[3]], t);
  }

  /** Enqueue 4: part 0 is routed to 2 and its route cached. */
  lemma Call4(cfg: Config, texts: seq<string>, xs: seq<Value>, id: Value)
    requires cfg.kind == Sequential && |texts| == 10 && |xs| == 10
    requires Accepted(cfg, texts[4], xs[4])
    requires InSeq(xs[1], id, 5) && InSeq(xs[2], id, 3) && InSeq(xs[3], id, 2)
    requires InSeq(xs[4], id, 0) && cfg.route(xs[4]) == Ok(2)
    requires RunUpTo(cfg, Initial(5), MixedCalls(texts), 4) == (State([], [xs[1], xs[2], xs[3]], [[xs[0]], [], [], [], []], map[], map[]), MixedOutcomes(cfg, xs)[..4])
    ensures RunUpTo(cfg, Initial(5), MixedCalls(texts), 5) == (State([], [xs[1], xs[2], xs[3]], [[xs[0]], [], [xs[4]], [], []], map[id := 0], map[id := 2]), MixedOutcomes(cfg, xs)[..5])
  {
    var s, t := State([], [xs[1], xs[2], xs[3]], [[xs[0]], [], [], [], []], map[], map[]), State([], [xs[1], xs[2], xs[3]], [[xs[0]], [], [xs[4]], [], []], map[id := 0], map[id := 2]);
    assert [xs[1], xs[2], xs[3]] + [xs[4]] == [xs[1], xs[2], xs[3], xs[4]];
    assert [] + [xs[4]] == [xs[4]];
    assert map[][id := 0] == map[id := 0] && map[][id := 2] == map[id := 2];
    SweepPartZero(cfg.route, id, xs[1], xs[2], xs[3], xs[4], [xs[0]], [], [], [], [], map[], map[]);
    assert MixedCalls(texts)[4] == Enq(texts[4]) && MixedOutcomes(cfg, xs)[4] == Enqueued(Pass);
    EnqOn(cfg, texts, xs, 4, s, [xs[1], xs[2], xs[3], xs[4]], t);
  }

  /** Enqueue 5: part 1 follows part 0 through the cached route. */
  lemma Call5(cfg: Config, texts: seq<string>, xs: seq<Value>, id: Value)
    requires cfg.kind == Sequential && |texts| == 10 && |xs| == 10
    requires Accepted(cfg, texts[5], xs[5])
    requires InSeq(xs[1], id, 5) && InSeq(xs[2], id, 3) && InSeq(xs[3], id, 2) && InSeq(xs[5], id, 1)
    requires RunUpTo(cfg, Initial(5), MixedCalls(texts), 5) == (State([], [xs[1], xs[2], xs[3]], [[xs[0]], [], [xs[4]], [], []], map[id := 0], map[id := 2]), MixedOutcomes(cfg, xs)[..5])
    ensures RunUpTo(cfg, Initial(5), MixedCalls(texts), 6) == (State([], [xs[1], xs[2], xs[3]], [[xs[0]], [], [xs[4], xs[5]], [], []], map[id := 1], map[id := 2]), MixedOutcomes(cfg, xs)[..6])
  {
    var s, t := State([], [xs[1], xs[2], xs[3]], [[xs[0]], [], [xs[4]], [], []], map[id := 0], map[id := 2]), State([], [xs[1], xs[2], xs[3]], [[xs[0]], [], [xs[4], xs[5]], [], []], map[id := 1], map[id := 2]);
    assert [xs[1], xs[2], xs[3]] + [xs[5]] == [xs[1], xs[2], xs[3], xs[5]];
    assert [xs[4]] + [xs[5]] == [xs[4], xs[5]];
    assert map[id := 0][id := 1] == map[id := 1];
    SweepPartOne(cfg.route, id, xs[1], xs[2], xs[3], xs[5], [xs[0]], [], [xs[4]], [], [], map[id := 0], map[id := 2]);
    assert MixedCalls(texts)[5] == Enq(texts[5]) && MixedOutcomes(cfg, xs)[5] == Enqueued(Pass);
    EnqOn(cfg, texts, xs, 5, s, [xs[1], xs[2], xs[3], xs[5]], t);
  }

  /** Enqueue 6: part 2 is released; the new item stays staged. */
  lemma Call6(cfg: Config, texts: seq<string>, xs: seq<Value>, id: Value)
    requires cfg.kind == Sequential && |texts| == 10 && |xs| == 10
    requires Accepted(cfg, texts[6], xs[6])
    requires InSeq(xs[1], id, 5) && InSeq(xs[2], id, 3) && InSeq(xs[3], id, 2)
    requires RunUpTo(cfg, Initial(5), MixedCalls(texts), 6) == (State([], [xs[1], xs[2], xs[3]], [[xs[0]], [], [xs[4], xs[5]], [], []], map[id := 1], map[id := 2]), MixedOutcomes(cfg, xs)[..6])
    ensures RunUpTo(cfg, Initial(5), MixedCalls(texts), 7) == (State([], [xs[6], xs[1], xs[2]], [[xs[0]], [], [xs[4], xs[5], xs[3]], [], []], map[id := 2], map[id := 2]), MixedOutcomes(cfg, xs)[..7])
  {
    var s, t := State([], [xs[1], xs[2], xs[3]], [[xs[0]], [], [xs[4], xs[5]], [], []], map[id := 1], map[id := 2]), State([], [xs[6], xs[1], xs[2]], [[xs[0]], [], [xs[4], xs[5], xs[3]], [], []], map[id := 2], map[id := 2]);
    assert [xs[1], xs[2], xs[3]] + [xs[6]] == [xs[1], xs[2], xs[3], xs[6]];
    assert [xs[4], xs[5]] + [xs[3]] == [xs[4], xs[5], xs[3]];
    assert map[id := 1][id := 2] == map[id := 2];
    SweepPartTwo(cfg.route, id, xs[1], xs[2], xs[3], xs[6], [xs[0]], [], [xs[4], xs[5]], [], [], map[id := 1], map[id := 2]);
    assert MixedCalls(texts)[6] == Enq(texts[6]) && MixedOutcomes(cfg, xs)[6] == Enqueued(Pass);
    EnqOn(cfg, texts, xs, 6, s, [xs[1], xs[2], xs[3], xs[6]], t);
  }

  /** Enqueue 7: the staged item goes to 2, then part 3. */
  lemma Call7(cfg: Config, texts: seq<string>, xs: seq<Value>, id: Value)
    requires cfg.kind == Sequential && |texts| == 10 && |xs| == 10
    requires Accepted(cfg, texts[7], xs[7])
    requires RoutedTo(cfg.route, xs[6], 2) && InSeq(xs[1], id, 5) && InSeq(xs[2], id, 3)
    requires RunUpTo(cfg, Initial(5), MixedCalls(texts), 7) == (State([], [xs[6], xs[1], xs[2]], [[xs[0]], [], [xs[4], xs[5], xs[3]], [], []], map[id := 2], map[id := 2]), MixedOutcomes(cfg, xs)[..7])
    ensures RunUpTo(cfg, Initial(5), MixedCalls(texts), 8) == (State([], [xs[7], xs[1]], [[xs[0]], [], [xs[4], xs[5], xs[3], xs[6], xs[2]], [], []], map[id := 3], map[id := 2]), MixedOutcomes(cfg, xs)[..8])
  {
    var s, t := State([], [xs[6], xs[1], xs[2]], [[xs[0]], [], [xs[4], xs[5], xs[3]], [], []], map[id := 2], map[id := 2]), State([], [xs[7], xs[1]], [[xs[0]], [], [xs[4], xs[5], xs[3], xs[6], xs[2]], [], []], map[id := 3], map[id := 2]);
    assert [xs[6], xs[1], xs[2]] + [xs[7]] == [xs[6], xs[1], xs[2], xs[7]];
    assert [xs[4], xs[5], xs[3]] + [xs[6]] + [xs[2]] == [xs[4], xs[5], xs[3], xs[6], xs[2]];
    assert map[id := 2][id := 3] == map[id := 3];
    SweepPartThree(cfg.route, id, xs[6], xs[1], xs[2], xs[7], [xs[0]], [], [xs[4], xs[5], xs[3]], [], [], map[id := 2], map[id := 2]);
    assert MixedCalls(texts)[7] == Enq(texts[7]) && MixedOutcomes(cfg, xs)[7] == Enqueued(Pass);
    EnqOn(cfg, texts, xs, 7, s, [xs[6], xs[1], xs[2], xs[7]], t);
  }

  /** Enqueue 8: an item goes to 3 ahead of part 5. */
  lemma Call8(cfg: Config, texts: seq<string>, xs: seq<Value>, id: Value)
    requires cfg.kind == Sequential && |texts| == 10 && |xs| == 10
    requires Accepted(cfg, texts[8], xs[8])
    requires RoutedTo(cfg.route, xs[7], 3) && InSeq(xs[1], id, 5)
    requires RunUpTo(cfg, Initial(5), MixedCalls(texts), 8) == (State([], [xs[7], xs[1]], [[xs[0]], [], [xs[4], xs[5], xs[3], xs[6], xs[2]], [], []], map[id := 3], map[id := 2]), MixedOutcomes(cfg, xs)[..8])
    ensures RunUpTo(cfg, Initial(5), MixedCalls(texts), 9) == (State([], [xs[8], xs[1]], [[xs[0]], [], [xs[4], xs[5], xs[3], xs[6], xs[2]], [xs[7]], []], map[id := 3], map[id := 2]), MixedOutcomes(cfg, xs)[..9])
  {
    var s, t := State([], [xs[7], xs[1]], [[xs[0]], [], [xs[4], xs[5], xs[3], xs[6], xs[2]], [], []], map[id := 3], map[id := 2]), State([], [xs[8], xs[1]], [[xs[0]], [], [xs[4], xs[5], xs[3], xs[6], xs[2]], [xs[7]], []], map[id := 3], map[id := 2]);
    assert [xs[7], xs[1]] + [xs[8]] == [xs[7], xs[1], xs[8]];
    var qs8: seq<seq<Value>> := [[xs[0]], [], [xs[4], xs[5], xs[3], xs[6], xs[2]], [], []];
    assert qs8[3] + [xs[7]] == [xs[7]];
    assert qs8[3 := [xs[7]]] == [[xs[0]], [], [xs[4], xs[5], xs[3], xs[6], xs[2]], [xs[7]], []];
    SweepDeliverAhead(cfg.route, id, xs[7], xs[1], xs[8], [[xs[0]], [], [xs[4], xs[5], xs[3], xs[6], xs[2]], [], []], 3, map[id := 3], map[id := 2]);
    assert MixedCalls(texts)[8] == Enq(texts[8]) && MixedOutcomes(cfg, xs)[8] == Enqueued(Pass);
    EnqOn(cfg, texts, xs, 8, s, [xs[7], xs[1], xs[8]], t);
  }

  /** Enqueue 9: an item goes to 4 ahead of part 5. */
  lemma Call9(cfg: Config, texts: seq<string>, xs: seq<Value>, id: Value)
    requires cfg.kind == Sequential && |texts| == 10 && |xs| == 10
    requires Accepted(cfg, texts[9], xs[9])
    requires RoutedTo(cfg.route, xs[8], 4) && InSeq(xs[1], id, 5)
    requires RunUpTo(cfg, Initial(5), MixedCalls(texts), 9) == (State([], [xs[8], xs[1]], [[xs[0]], [], [xs[4], xs[5], xs[3], xs[6], xs[2]], [xs[7]], []], map[id := 3], map[id := 2]), MixedOutcomes(cfg, xs)[..9])
    ensures RunUpTo(cfg, Initial(5), MixedCalls(texts), 10) == (State([], [xs[9], xs[1]], [[xs[0]], [], [xs[4], xs[5], xs[3], xs[6], xs[2]], [xs[7]], [xs[8]]], map[id := 3], map[id := 2]), MixedOutcomes(cfg, xs)[..10])
  {
    var s, t := State([], [xs[8], xs[1]], [[xs[0]], [], [xs[4], xs[5], xs[3], xs[6], xs[2]], [xs[7]], []], map[id := 3], map[id := 2]), State([], [xs[9], xs[1]], [[xs[0]], [], [xs[4], xs[5], xs[3], xs[6], xs[2]], [xs[7]], [xs[8]]], map[id := 3], map[id := 2]);
    assert [xs[8], xs[1]] + [xs[9]] == [xs[8], xs[1], xs[9]];
    var qs9: seq<seq<Value>> := [[xs[0]], [], [xs[4], xs[5], xs[3], xs[6], xs[2]], [xs[7]], []];
    assert qs9[4] + [xs[8]] == [xs[8]];
    assert qs9[4 := [xs[8]]] == [[xs[0]], [], [xs[4], xs[5], xs[3], xs[6], xs[2]], [xs[7]], [xs[8]]];
    SweepDeliverAhead(cfg.route, id, xs[8], xs[1], xs[9], [[xs[0]], [], [xs[4], xs[5], xs[3], xs[6], xs[2]], [xs[7]], []], 4, map[id := 3], map[id := 2]);
    assert MixedCalls(texts)[9] == Enq(texts[9]) && MixedOutcomes(cfg, xs)[9] == Enqueued(Pass);
    EnqOn(cfg, texts, xs, 9, s, [xs[8], xs[1], xs[9]], t);
  }

  /** next(0): the last item goes to 1 first, then the `_special` item is returned. */
  lemma Call10(cfg: Config, texts: seq<string>, xs: seq<Value>, id: Value)
    requires cfg.kind == Sequential && |texts| == 10 && |xs| == 10
    requires RoutedTo(cfg.route, xs[9], 1) && RoutedTo(cfg.route, xs[0], 0)
    requires RunUpTo(cfg, Initial(5), MixedCalls(texts), 10) == (State([], [xs[9], xs[1]], [[xs[0]], [], [xs[4], xs[5], xs[3], xs[6], xs[2]], [xs[7]], [xs[8]]], map[id := 3], map[id := 2]), MixedOutcomes(cfg, xs)[..10])
    ensures RunUpTo(cfg, Initial(5), MixedCalls(texts), 11) == (State([], [xs[1]], [[], [xs[9]], [xs[4], xs[5], xs[3], xs[6], xs[2]], [xs[7]], [xs[8]]], map[id := 3], map[id := 2]), MixedOutcomes(cfg, xs)[..11])
  {
    var s, t := State([], [xs[9], xs[1]], [[xs[0]], [], [xs[4], xs[5], xs[3], xs[6], xs[2]], [xs[7]], [xs[8]]], map[id := 3], map[id := 2]), State([], [xs[1]], [[], [xs[9]], [xs[4], xs[5], xs[3], xs[6], xs[2]], [xs[7]], [xs[8]]], map[id := 3], map[id := 2]);
    assert [] + [xs[9]] == [xs[9]];
    NextZero(cfg, xs[0], xs[9], xs[1], [], [xs[4], xs[5], xs[3], xs[6], xs[2]], [xs[7]], [xs[8]], map[id := 3], map[id := 2]);
    assert MixedCalls(texts)[10] == NextOf(0) && MixedOutcomes(cfg, xs)[10] == Returned(Ok(cfg.json.stringify(xs[0])));
    RunStep(cfg, Initial(5), MixedCalls(texts), 10, s, MixedOutcomes(cfg, xs)[..10]);
    Snoc(MixedOutcomes(cfg, xs), 10);
  }

  /** next(1): part 5 goes round once and xs[9] is returned. */
  lemma Call11(cfg: Config, texts: seq<string>, xs: seq<Value>, id: Value)
    requires cfg.kind == Sequential && |texts| == 10 && |xs| == 10
    requires InSeq(xs[1], id, 5) && xs[9] != Null
    requires RunUpTo(cfg, Initial(5), MixedCalls(texts), 11) == (State([], [xs[1]], [[], [xs[9]], [xs[4], xs[5], xs[3], xs[6], xs[2]], [xs[7]], [xs[8]]], map[id := 3], map[id := 2]), MixedOutcomes(cfg, xs)[..11])
    ensures RunUpTo(cfg, Initial(5), MixedCalls(texts), 12) == (State([], [xs[1]], [[], [], [xs[4], xs[5], xs[3], xs[6], xs[2]], [xs[7]], [xs[8]]], map[id := 3], map[id := 2]), MixedOutcomes(cfg, xs)[..12])
  {
    var qs, left := [[], [xs[9]], [xs[4], xs[5], xs[3], xs[6], xs[2]], [xs[7]], [xs[8]]], [[], [], [xs[4], xs[5], xs[3], xs[6], xs[2]], [xs[7]], [xs[8]]];
    assert [xs[9]][1..] == [];
    assert left == qs[1 := qs[1][1..]];
    assert MixedCalls(texts)[11] == NextOf(1) && MixedOutcomes(cfg, xs)[11] == Returned(Ok(cfg.json.stringify(xs[9])));
    NextOn(cfg, texts, xs, id, 11, 1, qs, left, map[id := 3], map[id := 2], xs[9]);
  }

  /** next(2): part 5 goes round once and xs[4] is returned. */
  lemma Call12(cfg: Config, texts: seq<string>, xs: seq<Value>, id: Value)
    requires cfg.kind == Sequential && |texts| == 10 && |xs| == 10
    requires InSeq(xs[1], id, 5) && xs[4] != Null
    requires RunUpTo(cfg, Initial(5), MixedCalls(texts), 12) == (State([], [xs[1]], [[], [], [xs[4], xs[5], xs[3], xs[6], xs[2]], [xs[7]], [xs[8]]], map[id := 3], map[id := 2]), MixedOutcomes(cfg, xs)[..12])
    ensures RunUpTo(cfg, Initial(5), MixedCalls(texts), 13) == (State([], [xs[1]], [[], [], [xs[5], xs[3], xs[6], xs[2]], [xs[7]], [xs[8]]], map[id := 3], map[id := 2]), MixedOutcomes(cfg, xs)[..13])
  {
    var qs, left := [[], [], [xs[4], xs[5], xs[3], xs[6], xs[2]], [xs[7]], [xs[8]]], [[], [], [xs[5], xs[3], xs[6], xs[2]], [xs[7]], [xs[8]]];
    assert [xs[4], xs[5], xs[3], xs[6], xs[2]][1..] == [xs[5], xs[3], xs[6], xs[2]];
    assert left == qs[2 := qs[2][1..]];
    assert MixedCalls(texts)[12] == NextOf(2) && MixedOutcomes(cfg, xs)[12] == Returned(Ok(cfg.json.stringify(xs[4])));
    NextOn(cfg, texts, xs, id, 12, 2, qs, left, map[id := 3], map[id := 2], xs[4]);
  }

  /** next(2): part 5 goes round once and xs[5] is returned. */
  lemma Call13(cfg: Config, texts: seq<string>, xs: seq<Value>, id: Value)
    requires cfg.kind == Sequential && |texts| == 10 && |xs| == 10
    requires InSeq(xs[1], id, 5) && xs[5] != Null
    requires RunUpTo(cfg, Initial(5), MixedCalls(texts), 13) == (State([], [xs[1]], [[], [], [xs[5], xs[3], xs[6], xs[2]], [xs[7]], [xs[8]]], map[id := 3], map[id := 2]), MixedOutcomes(cfg, xs)[..13])
    ensures RunUpTo(cfg, Initial(5), MixedCalls(texts), 14) == (State([], [xs[1]], [[], [], [xs[3], xs[6], xs[2]], [xs[7]], [xs[8]]], map[id := 3], map[id := 2]), MixedOutcomes(cfg, xs)[..14])
  {
    var qs, left := [[], [], [xs[5], xs[3], xs[6], xs[2]], [xs[7]], [xs[8]]], [[], [], [xs[3], xs[6], xs[2]], [xs[7]], [xs[8]]];
    assert [xs[5], xs[3], xs[6], xs[2]][1..] == [xs[3], xs[6], xs[2]];
    assert left == qs[2 := qs[2][1..]];
    assert MixedCalls(texts)[13] == NextOf(2) && MixedOutcomes(cfg, xs)[13] == Returned(Ok(cfg.json.stringify(xs[5])));
    NextOn(cfg, texts, xs, id, 13, 2, qs, left, map[id := 3], map[id := 2], xs[5]);
  }

  /** next(2): part 5 goes round once and xs[3] is returned. */
  lemma Call14(cfg: Config, texts: seq<string>, xs: seq<Value>, id: Value)
    requires cfg.kind == Sequential && |texts| == 10 && |xs| == 10
    requires InSeq(xs[1], id, 5) && xs[3] != Null
    requires RunUpTo(cfg, Initial(5), MixedCalls(texts), 14) == (State([], [xs[1]], [[], [], [xs[3], xs[6], xs[2]], [xs[7]], [xs[8]]], map[id := 3], map[id := 2]), MixedOutcomes(cfg, xs)[..14])
    ensures RunUpTo(cfg, Initial(5), MixedCalls(texts), 15) == (State([], [xs[1]], [[], [], [xs[6], xs[2]], [xs[7]], [xs[8]]], map[id := 3], map[id := 2]), MixedOutcomes(cfg, xs)[..15])
  {
    var qs, left := [[], [], [xs[3], xs[6], xs[2]], [xs[7]], [xs[8]]], [[], [], [xs[6], xs[2]], [xs[7]], [xs[8]]];
    assert [xs[3], xs[6], xs[2]][1..] == [xs[6], xs[2]];
    assert left == qs[2 := qs[2][1..]];
    assert MixedCalls(texts)[14] == NextOf(2) && MixedOutcomes(cfg, xs)[14] == Returned(Ok(cfg.json.stringify(xs[3])));
    NextOn(cfg, texts, xs, id, 14, 2, qs, left, map[id := 3], map[id := 2], xs[3]);
  }

  /** next(2): part 5 goes round once and xs[6] is returned. */
  lemma Call15(cfg: Config, texts: seq<string>, xs: seq<Value>, id: Value)
    requires cfg.kind == Sequential && |texts| == 10 && |xs| == 10
    requires InSeq(xs[1], id, 5) && xs[6] != Null
    requires RunUpTo(cfg, Initial(5), MixedCalls(texts), 15) == (State([], [xs[1]], [[], [], [xs[6], xs[2]], [xs[7]], [xs[8]]], map[id := 3], map[id := 2]), MixedOutcomes(cfg, xs)[..15])
    ensures RunUpTo(cfg, Initial(5), MixedCalls(texts), 16) == (State([], [xs[1]], [[], [], [xs[2]], [xs[7]], [xs[8]]], map[id := 3], map[id := 2]), MixedOutcomes(cfg, xs)[..16])
  {
    var qs, left := [[], [], [xs[6], xs[2]], [xs[7]], [xs[8]]], [[], [], [xs[2]], [xs[7]], [xs[8]]];
    assert [xs[6], xs[2]][1..] == [xs[2]];
    assert left == qs[2 := qs[2][1..]];
    assert MixedCalls(texts)[15] == NextOf(2) && MixedOutcomes(cfg, xs)[15] == Returned(Ok(cfg.json.stringify(xs[6])));
    NextOn(cfg, texts, xs, id, 15, 2, qs, left, map[id := 3], map[id := 2], xs[6]);
  }

  /** next(2): part 5 goes round once and xs[2] is returned. */
  lemma Call16(cfg: Config, texts: seq<string>, xs: seq<Value>, id: Value)
    requires cfg.kind == Sequential && |texts| == 10 && |xs| == 10
    requires InSeq(xs[1], id, 5) && xs[2] != Null
    requires RunUpTo(cfg, Initial(5), MixedCalls(texts), 16) == (State([], [xs[1]], [[], [], [xs[2]], [xs[7]], [xs[8]]], map[id := 3], map[id := 2]), MixedOutcomes(cfg, xs)[..16])
    ensures RunUpTo(cfg, Initial(5), MixedCalls(texts), 17) == (State([], [xs[1]], [[], [], [], [xs[7]], [xs[8]]], map[id := 3], map[id := 2]), MixedOutcomes(cfg, xs)[..17])
  {
    var qs, left := [[], [], [xs[2]], [xs[7]], [xs[8]]], [[], [], [], [xs[7]], [xs[8]]];
    assert [xs[2]][1..] == [];
    assert left == qs[2 := qs[2][1..]];
    assert MixedCalls(texts)[16] == NextOf(2) && MixedOutcomes(cfg, xs)[16] == Returned(Ok(cfg.json.stringify(xs[2])));
    NextOn(cfg, texts, xs, id, 16, 2, qs, left, map[id := 3], map[id := 2], xs[2]);
  }

  /** next(3): part 5 goes round once and xs[7] is returned. */
  lemma Call17(cfg: Config, texts: seq<string>, xs: seq<Value>, id: Value)
    requires cfg.kind == Sequential && |texts| == 10 && |xs| == 10
    requires InSeq(xs[1], id, 5) && xs[7] != Null
    requires RunUpTo(cfg, Initial(5), MixedCalls(texts), 17) == (State([], [xs[1]], [[], [], [], [xs[7]], [xs[8]]], map[id := 3], map[id := 2]), MixedOutcomes(cfg, xs)[..17])
    ensures RunUpTo(cfg, Initial(5), MixedCalls(texts), 18) == (State([], [xs[1]], [[], [], [], [], [xs[8]]], map[id := 3], map[id := 2]), MixedOutcomes(cfg, xs)[..18])
  {
    var qs, left := [[], [], [], [xs[7]], [xs[8]]], [[], [], [], [], [xs[8]]];
    assert [xs[7]][1..] == [];
    assert left == qs[3 := qs[3][1..]];
    assert MixedCalls(texts)[17] == NextOf(3) && MixedOutcomes(cfg, xs)[17] == Returned(Ok(cfg.json.stringify(xs[7])));
    NextOn(cfg, texts, xs, id, 17, 3, qs, left, map[id := 3], map[id := 2], xs[7]);
  }

  /** next(4): part 5 goes round once and xs[8] is returned. */
  lemma Call18(cfg: Config, texts: seq<string>, xs: seq<Value>, id: Value)
    requires cfg.kind == Sequential && |texts| == 10 && |xs| == 10
    requires InSeq(xs[1], id, 5) && xs[8] != Null
    requires RunUpTo(cfg, Initial(5), MixedCalls(texts), 18) == (State([], [xs[1]], [[], [], [], [], [xs[8]]], map[id := 3], map[id := 2]), MixedOutcomes(cfg, xs)[..18])
    ensures RunUpTo(cfg, Initial(5), MixedCalls(texts), 19) == (State([], [xs[1]], [[], [], [], [], []], map[id := 3], map[id := 2]), MixedOutcomes(cfg, xs)[..19])
  {
    var qs, left := [[], [], [], [], [xs[8]]], [[], [], [], [], []];
    assert [xs[8]][1..] == [];
    assert left == qs[4 := qs[4][1..]];
    assert MixedCalls(texts)[18] == NextOf(4) && MixedOutcomes(cfg, xs)[18] == Returned(Ok(cfg.json.stringify(xs[8])));
    NextOn(cfg, texts, xs, id, 18, 4, qs, left, map[id := 3], map[id := 2], xs[8]);
  }

}
