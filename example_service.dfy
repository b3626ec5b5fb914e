/** getMessageService: a sequential service with NUM_OUT_QUEUES output
    queues, exampleTransform and exampleDispatch. Because exampleDispatch
    always names one of those queues, such a service never raises "Bad
    dispatch route number". */
module ExampleService {
  import opened Values
  import opened Pipeline
  import opened Fifo
  import S = Strategies
  import R = Routing

  /** The configuration getMessageService builds, for a given digest and
      JSON codec. */
  function ExampleConfig(digest: Value -> string, json: Codec): Config {
    Config(Sequential, (m: Value) => S.Transform(digest, m), S.ExampleRoute, json)
  }

  /** Every cached route names an output queue. */
  predicate RoutesInRange(s: State) {
    forall k :: k in s.seqRoute ==> 0 <= s.seqRoute[k] < |s.outputs|
  }

  lemma ExampleRouteItemPasses(s: State, x: Value)
    requires |s.outputs| == S.NUM_OUT_QUEUES && RoutesInRange(s)
    ensures RouteItem(s, x, S.ExampleRoute).1 == Pass
    ensures RoutesInRange(RouteItem(s, x, S.ExampleRoute).0)
  {
  }

  /** No gap in the example service: when dispatchOne releases a part (its
      sequence's index moves up to it), that part reaches an output queue
      in the same step, and the sweep goes on. With a router that raises
      or names no queue the index would move all the same and the part be
      lost (Routing.IndexAdvancesBeforeRouting). */
  lemma ExampleReleaseDelivers(s: State)
    requires |s.outputs| == S.NUM_OUT_QUEUES && RoutesInRange(s)
    requires s.staging != [] && s.staging[0] != Null
    requires Sequenced(s.staging[0]) && IsInteger(Get(s.staging[0], "_part"))
    requires Releasable(s, s.staging[0])
    ensures var (s', st) := SeqDispatchOne(s, S.ExampleRoute);
      var x := s.staging[0];
      && st == Pass
      && s'.seqIndex == s.seqIndex[SeqId(x).value := Part(x)]
      && s'.staging == s.staging[1..]
      && exists c :: 0 <= c < S.NUM_OUT_QUEUES && s'.outputs == s.outputs[c := s.outputs[c] + [x]]
  {
    var x := s.staging[0];
    var s2 := s.(staging := s.staging[1..], seqIndex := s.seqIndex[SeqId(x).value := Part(x)]);
    ExampleRouteItemPasses(s2, x);
    R.RouteItemSpec(s2, x, S.ExampleRoute);
    var c := R.Chosen(s2, x, S.ExampleRoute).value;
    assert 0 <= c < S.NUM_OUT_QUEUES;
  }

  /** A sweep of the example service can only raise "Ran out" (a `null`
      item) or the `_part` error, never a routing error, and it keeps
      every cached route in range. */
  lemma {:induction false} ExampleSweepNeverMisroutes(s: State, i: nat)
    requires |s.outputs| == S.NUM_OUT_QUEUES && RoutesInRange(s)
    ensures var (s', st) := Sweep(Sequential, s, S.ExampleRoute, i);
      && RoutesInRange(s') && |s'.outputs| == S.NUM_OUT_QUEUES
      && (st.Fail? ==> st.error == RanOut || st.error == PartNotInt)
    decreases |s.staging| - i
  {
    if i < |s.staging| {
      var (s1, st) := SeqDispatchOne(s, S.ExampleRoute);
      assert (s1, st) == DispatchOne(Sequential, s, S.ExampleRoute);
      if s.staging[0] != Null {
        var x := s.staging[0];
        var r := s.(staging := s.staging[1..]);
        if !Sequenced(x) {
          ExampleRouteItemPasses(r, x);
        } else if IsInteger(Get(x, "_part")) && Releasable(s, x) {
          ExampleRouteItemPasses(r.(seqIndex := s.seqIndex[SeqId(x).value := Part(x)]), x);
        }
      }
      if st.Pass? {
        ExampleSweepNeverMisroutes(s1, i + 1);
      }
    }
  }

  /** Hence enqueue on the example service raises only what the input
      queue, the transform or the `_part` test raise. */
  lemma ExampleEnqueueNeverMisroutes(digest: Value -> string, json: Codec, s: State, text: string)
    requires |s.outputs| == S.NUM_OUT_QUEUES && RoutesInRange(s)
    ensures var (s', st) := Enqueue(ExampleConfig(digest, json), s, text);
      && RoutesInRange(s') && |s'.outputs| == S.NUM_OUT_QUEUES
      && (st.Fail? ==> st.error in {RanOut, PartNotInt, ParseError, HashKeyMissing})
  {
    var cfg := ExampleConfig(digest, json);
    if json.parse(text).Some? {
      var s0 := s.(input := s.input + [json.parse(text).value]);
      var (head, rest) := Shift(s0.input);
      if head.Ok? && S.Transform(digest, head.value).Ok? {
        var t := S.Transform(digest, head.value).value;
        ExampleSweepNeverMisroutes(s0.(input := rest, staging := s0.staging + [t]), 0);
      } else if head.Ok? {
        TransformErrors(digest, head.value);
      }
    }
  }

  /** exampleTransform raises nothing but "_hash value not a valid msg key". */
  lemma TransformErrors(digest: Value -> string, msg: Value)
    ensures S.Transform(digest, msg).Err? ==> S.Transform(digest, msg).error == HashKeyMissing
  {
    if msg.Obj? {
      TransformUpToErrors(digest, msg.fields, |msg.fields|);
    }
  }

  lemma {:induction false} TransformUpToErrors(digest: Value -> string, fields: seq<Field>, i: nat)
    requires i <= |fields|
    ensures S.TransformUpTo(digest, fields, i).Err? ==> S.TransformUpTo(digest, fields, i).error == HashKeyMissing
  {
    if i > 0 {
      TransformUpToErrors(digest, fields, i - 1);
    }
  }
}
