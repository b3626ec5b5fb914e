/** Properties of the public operations of MessageService: what enqueue does
    to the input and staging queues, and what next(N) does to the output
    queues. */
module ServiceProps {
  import opened Values
  import opened Fifo
  import opened Pipeline
  import opened Sequencing
  import opened Routing

  /** An enqueue that parses moves exactly the one parsed item out of the
      input queue again, so a service whose input queue is empty (every
      service built by the constructor) keeps it empty; an enqueue that does
      not parse changes nothing. */
  lemma EnqueueKeepsInputEmpty(cfg: Config, s: State, text: string)
    requires s.input == []
    ensures Enqueue(cfg, s, text).0.input == []
    ensures cfg.json.parse(text).None? ==> Enqueue(cfg, s, text) == (s, Fail(ParseError))
  {
    if cfg.json.parse(text).Some? {
      var v := cfg.json.parse(text).value;
      assert Shift([v]).1 == [];
    }
  }

  /** On an empty input queue, enqueue stages the transformed item behind
      the staging queue and sweeps; a transform that raises, or a message
      that parses to `null` (which the input queue reports as "Ran out"),
      loses the message and leaves everything else as it was. */
  lemma EnqueueStagesOne(cfg: Config, s: State, text: string, v: Value)
    requires s.input == [] && cfg.json.parse(text) == Some(v)
    ensures v == Null ==> Enqueue(cfg, s, text) == (s, Fail(RanOut))
    ensures v != Null && cfg.transform(v).Err? ==> Enqueue(cfg, s, text) == (s, Fail(cfg.transform(v).error))
    ensures v != Null && cfg.transform(v).Ok? ==>
      Enqueue(cfg, s, text) == DispatchAll(cfg.kind, s.(staging := s.staging + [cfg.transform(v).value]), cfg.route)
  {
    assert Shift([v]).1 == [];
  }

  /** next(N) always sweeps first; its bounds test comes after, so even a
      call with a bad channel number dispatches. When the sweep completes
      and N names a queue, exactly that queue loses its oldest item, which
      is returned as JSON; an empty queue raises "Ran out". */
  lemma NextSpec(cfg: Config, s: State, ch: Value)
    ensures var (s1, st) := DispatchAll(cfg.kind, s, cfg.route);
      var (s2, r) := Next(cfg, s, ch);
      && (st.Fail? ==> s2 == s1 && r == Err(st.error))
      && (st.Pass? && OutOfBounds(s1, ch) ==> s2 == s1 && r == Err(BadNextRoute))
      && (st.Pass? && !OutOfBounds(s1, ch) && !Names(s1, ch) ==> s2 == s1 && r == Err(NoSuchQueue))
      && (st.Pass? && Names(s1, ch) ==>
            var n := ch.x.Floor;
            && s2.input == s1.input && s2.staging == s1.staging
            && s2.seqIndex == s1.seqIndex && s2.seqRoute == s1.seqRoute
            && |s2.outputs| == |s1.outputs|
            && (forall c :: 0 <= c < |s1.outputs| && c != n ==> s2.outputs[c] == s1.outputs[c])
            && (s1.outputs[n] == [] ==> s2 == s1 && r == Err(RanOut))
            && (s1.outputs[n] != [] ==> s2.outputs[n] == s1.outputs[n][1..])
            && (r.Ok? <==> s1.outputs[n] != [] && s1.outputs[n][0] != Null)
            && (r.Ok? ==> r.value == cfg.json.stringify(s1.outputs[n][0])))
  {
    var (s1, st) := DispatchAll(cfg.kind, s, cfg.route);
    if st.Pass? && Names(s1, ch) {
      var n := ch.x.Floor;
      if s1.outputs[n] == [] {
        assert s1.outputs[n := []] == s1.outputs;
      }
    }
  }

  /** next(N) on a freshly built service raises "Ran out" for every
      channel that names a queue, and "Bad next route number" for a number
      outside the queues. */
  lemma NextOnFreshService(cfg: Config, numOut: int, ch: Value)
    ensures Names(Initial(numOut), ch) ==> Next(cfg, Initial(numOut), ch) == (Initial(numOut), Err(RanOut))
    ensures OutOfBounds(Initial(numOut), ch) ==> Next(cfg, Initial(numOut), ch) == (Initial(numOut), Err(BadNextRoute))
  {
    var s := Initial(numOut);
    assert Sweep(cfg.kind, s, cfg.route, 0) == (s, Pass);
    if Names(s, ch) {
      var n := ch.x.Floor;
      assert s.outputs[n := []] == s.outputs;
    }
  }

  /** dispatchAll: a sweep never grows the staging queue, calls dispatchOne
      at most once per staged item and changes neither the input queue nor
      the number of output queues; on an empty staging queue it does
      nothing. A sequential sweep keeps every item it holds when it
      completes, and loses exactly one when it raises; it keeps the
      ordering invariant either way. */
  lemma DispatchAllSpec(kind: Kind, s: State, route: Router) returns (lost: Value)
    ensures var (s', st) := DispatchAll(kind, s, route);
      && s'.input == s.input && |s'.outputs| == |s.outputs| && |s'.staging| <= |s.staging|
      && Attempts(kind, s, route, 0) <= |s.staging|
      && (s.staging == [] ==> s' == s && st == Pass)
      && (kind == Sequential && st.Pass? ==> Items(s') == Items(s))
      && (kind == Sequential && st.Fail? ==> Items(s') + multiset{lost} == Items(s))
      && (kind == Sequential && SeqInv(s) ==> SeqInv(s'))
  {
    SweepBound(kind, s, route);
    lost := Null;
    if kind == Sequential {
      lost := SweepConserves(s, route, 0, Sweep(Sequential, s, route, 0));
      if SeqInv(s) {
        SweepKeepsInv(s, route, 0);
      }
    }
  }

  /** transformAndDipatchAll takes the oldest input item out; an empty
      queue or a `null` head raises "Ran out", a transform exception loses
      the item, and otherwise the transformed item joins the staging queue
      and a sweep runs, which on a sequential service holds on to it and to
      everything else unless the sweep raises and loses one item. */
  lemma TransformAndDispatchAllSpec(cfg: Config, s: State) returns (lost: Value)
    ensures var (s', st) := TransformAndDispatchAll(cfg, s);
      && (s.input == [] ==> s' == s && st == Fail(RanOut))
      && (s.input != [] ==> s'.input == s.input[1..])
      && (s.input != [] && s.input[0] == Null ==> s' == s.(input := s.input[1..]) && st == Fail(RanOut))
      && (s.input != [] && s.input[0] != Null && cfg.transform(s.input[0]).Err? ==>
            s' == s.(input := s.input[1..]) && st == Fail(cfg.transform(s.input[0]).error))
      && (s.input != [] && s.input[0] != Null && cfg.transform(s.input[0]).Ok? && cfg.kind == Sequential ==>
            var t := cfg.transform(s.input[0]).value;
            && (st.Pass? ==> Items(s') == Items(s) + multiset{t})
            && (st.Fail? ==> Items(s') + multiset{lost} == Items(s) + multiset{t}))
  {
    lost := Null;
    if s.input != [] && s.input[0] != Null && cfg.transform(s.input[0]).Ok? {
      var t := cfg.transform(s.input[0]).value;
      var s1 := s.(input := s.input[1..], staging := s.staging + [t]);
      assert Items(s1) == Items(s) + multiset{t};
      lost := DispatchAllSpec(cfg.kind, s1, cfg.route);
    }
  }

  /** enqueue: text that does not parse raises and changes nothing; a
      parsed message goes in at the back of the input queue and the oldest
      input item goes through transformAndDipatchAll. On a sequential
      service with an empty input queue, every item held before is still
      held afterwards, together with the transformed message, unless the
      sweep raised and lost exactly one item. */
  lemma EnqueueConserves(cfg: Config, s: State, text: string) returns (lost: Value)
    requires cfg.kind == Sequential
    ensures var (s', st) := Enqueue(cfg, s, text);
      match cfg.json.parse(text)
      case None => s' == s && st == Fail(ParseError)
      case Some(v) =>
        var u := s.input + [v];
        && s'.input == u[1..]
        && (u[0] == Null ==> s' == s.(input := u[1..]) && st == Fail(RanOut))
        && (u[0] != Null && cfg.transform(u[0]).Err? ==> s' == s.(input := u[1..]) && st == Fail(cfg.transform(u[0]).error))
        && (u[0] != Null && cfg.transform(u[0]).Ok? ==>
              var t := cfg.transform(u[0]).value;
              && (st.Pass? ==> Items(s') == Items(s) + multiset{t})
              && (st.Fail? ==> Items(s') + multiset{lost} == Items(s) + multiset{t}))
  {
    lost := Null;
    if cfg.json.parse(text).Some? {
      var v := cfg.json.parse(text).value;
      var s0 := s.(input := s.input + [v]);
      lost := TransformAndDispatchAllSpec(cfg, s0);
      assert Items(s0) == Items(s);
    }
  }

  /** The two tests next(N) makes of a channel. A number names a queue iff
      it passes the bounds test and is integral; no other value fails the
      test or names a queue. */
  lemma ChannelTests(s: State, ch: Value)
    ensures ch.Num? ==> (Names(s, ch) <==> !OutOfBounds(s, ch) && IsIntegral(ch.x))
    ensures !ch.Num? ==> !OutOfBounds(s, ch) && !Names(s, ch)
  {
    if ch.Num? && !OutOfBounds(s, ch) && IsIntegral(ch.x) {
      assert ch.x.Floor as real == ch.x;
    }
  }
}
