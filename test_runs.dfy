/** The 'mixed case with _sequence' test of test/test.js, run against the
    service getMessageService builds: ten messages are enqueued, then next
    is called on channels 0, 1, 2, 2, 2, 2, 2, 3 and 4. The JSON codec and
    the digest stay parameters; the codec is only assumed to decode each
    text of the test to its object. */
module TestRuns {
  import opened Values
  import opened Pipeline
  import opened Strategies
  import opened ExampleService
  import opened TestItems
  import opened Replay

  /** A message outside any sequence that exampleDispatch sends to `c`. */
  lemma Unsequenced(x: Value, c: int)
    requires x.Obj? && ExampleDispatch(x) == c
    requires forall j :: 0 <= j < |x.fields| ==> x.fields[j].0 != "_sequence"
    ensures RoutedTo(ExampleRoute, x, c)
  {
    Absent(x.fields, "_sequence");
  }

  /** Part `part` of the sequence "seqid_0". */
  lemma PartOf(x: Value, part: int)
    requires x.Obj? && |x.fields| >= 2
    requires x.fields[0] == ("_sequence", SEQ_ID) && x.fields[1] == ("_part", Num(part as real))
    ensures InSeq(x, SEQ_ID, part)
  {
    assert Lookup(x.fields[1..], "_part") == Some(Num(part as real));
  }

  lemma MixedItemsHold(digest: Value -> string)
    ensures MixedItems(ExampleRoute, MixedTransformed(digest), SEQ_ID)
  {
    var xs := MixedTransformed(digest);
    FirstItemsHold(digest, xs);
    LastItemsHold(digest, xs);
  }

  lemma FirstItemsHold(digest: Value -> string, xs: seq<Value>)
    requires xs == MixedTransformed(digest)
    ensures RoutedTo(ExampleRoute, xs[0], 0)
    ensures InSeq(xs[1], SEQ_ID, 5) && InSeq(xs[2], SEQ_ID, 3) && InSeq(xs[3], SEQ_ID, 2)
    ensures InSeq(xs[4], SEQ_ID, 0) && ExampleRoute(xs[4]) == Ok(2)
  {
    DispatchSpecial(digest);
    Unsequenced(xs[0], 0);
    PartOf(xs[1], 5);
    PartOf(xs[2], 3);
    PartOf(xs[3], 2);
    PartOf(xs[4], 0);
    DispatchPart0();
  }

  lemma LastItemsHold(digest: Value -> string, xs: seq<Value>)
    requires xs == MixedTransformed(digest)
    ensures InSeq(xs[5], SEQ_ID, 1)
    ensures RoutedTo(ExampleRoute, xs[6], 2) && RoutedTo(ExampleRoute, xs[7], 3)
    ensures RoutedTo(ExampleRoute, xs[8], 4) && RoutedTo(ExampleRoute, xs[9], 1)
  {
    PartOf(xs[5], 1);
    DispatchMessageExample();
    Unsequenced(xs[6], 2);
    DispatchMessageInt();
    Unsequenced(xs[7], 3);
    DispatchMessage();
    Unsequenced(xs[8], 4);
    DispatchHashed(digest);
    Unsequenced(xs[9], 1);
  }

  lemma DecodedHolds(digest: Value -> string, json: Codec, texts: seq<string>)
    requires |texts| == 10
    requires forall k :: 0 <= k < 10 ==> json.parse(texts[k]) == Some(MixedObjects()[k])
    ensures Decoded(ExampleConfig(digest, json), texts, MixedTransformed(digest))
  {
    var cfg, xs := ExampleConfig(digest, json), MixedTransformed(digest);
    TransformMixed(digest);
    forall k | 0 <= k < 10
      ensures Accepted(cfg, texts[k], xs[k])
    {
      assert MixedObjects()[k].Obj?;
    }
  }

  /** The test's expectations, in its own terms: every enqueue passes;
      channel 0 returns the `_special` message with its `hash`, channel 1
      the hashed message, channel 2 "elpmaxE esrever", "non reverse 1",
      "non reverse 2", "elpmaxE egassem" and "non reverse 3" in that order,
      channel 3 the negated integer and channel 4 the plain message. Part 5
      stays staged, because part 4 never comes. */
  lemma MixedCaseWithSequence(digest: Value -> string, json: Codec, texts: seq<string>)
    requires |texts| == 10
    requires forall k :: 0 <= k < 10 ==> json.parse(texts[k]) == Some(MixedObjects()[k])
    ensures var cfg := ExampleConfig(digest, json);
      var (s, outs) := Run(cfg, Initial(NUM_OUT_QUEUES), MixedCalls(texts));
      var out := (x: Value) => Returned(Ok(json.stringify(x)));
      && |outs| == 19
      && (forall k :: 0 <= k < 10 ==> outs[k] == Enqueued(Pass))
      && outs[10..] == [out(SpecialOut(digest)), out(HashedOut(digest)),
                       out(PART0_OUT), out(PART1), out(PART2), out(MSG_EXAMPLE_OUT), out(PART3),
                       out(MSG_INT_OUT), out(MSG)]
      && s.staging == [PART5] && s.seqRoute == map[SEQ_ID := 2]
      && forall c :: 0 <= c < |s.outputs| ==> s.outputs[c] == []
  {
    var cfg, xs := ExampleConfig(digest, json), MixedTransformed(digest);
    MixedItemsHold(digest);
    DecodedHolds(digest, json, texts);
    MixedRun(cfg, texts, xs, SEQ_ID);
    ExpectedOutcomes(digest, json, xs);
  }

  lemma ExpectedOutcomes(digest: Value -> string, json: Codec, xs: seq<Value>)
    requires xs == MixedTransformed(digest)
    ensures var outs := MixedOutcomes(ExampleConfig(digest, json), xs);
      var out := (x: Value) => Returned(Ok(json.stringify(x)));
      && |outs| == 19
      && (forall k :: 0 <= k < 10 ==> outs[k] == Enqueued(Pass))
      && outs[10..] == [out(SpecialOut(digest)), out(HashedOut(digest)),
                       out(PART0_OUT), out(PART1), out(PART2), out(MSG_EXAMPLE_OUT), out(PART3),
                       out(MSG_INT_OUT), out(MSG)]
  {
  }

  // ---------------------------------------------------------------------
  // The single-message tests

  // The texts those tests enqueue.
  const SPECIAL_TEXT: string := "{ \"_special\": \"nonempty\", \"int_value\": 512, \"str\":\"234asdf\", \"_hash\":\"str\", \"_other\":\"misc\" }"
  const INT_TEXT: string := "{\"test\": \"message\", \"int_value\": 512}"
  const EXAMPLE_TEXT: string := "{\"test\": \"message Example\"}"
  const PLAIN_TEXT: string := "{\"test\": \"message\"}"

  /** One message enqueued on a fresh service and read back with next on
      the channel it is routed to: the enqueue passes, next returns the
      transformed message as JSON, and the service is empty again. */
  lemma SingleCase(cfg: Config, text: string, v: Value, t: Value, c: int)
    requires cfg.kind == Sequential && 0 <= c < NUM_OUT_QUEUES
    requires cfg.json.parse(text) == Some(v) && v != Null && cfg.transform(v) == Ok(t)
    requires RoutedTo(cfg.route, t, c)
    ensures Run(cfg, Initial(NUM_OUT_QUEUES), [Enq(text), NextOf(c)])
         == (Initial(NUM_OUT_QUEUES), [Enqueued(Pass), Returned(Ok(cfg.json.stringify(t)))])
  {
    var calls := [Enq(text), NextOf(c)];
    var s0 := Initial(NUM_OUT_QUEUES);
    var empty: seq<Value> := [];
    assert s0.staging + [t] == [t];
    var staged := s0.(staging := [t]);
    EnqueueStep(cfg, s0, text, v, t);
    var s1 := staged.(staging := [], outputs := s0.outputs[c := empty + [t]]);
    assert [t][1..] == [];
    DeliverStep(staged, cfg.route, 0, c, s1);
    SweepEnd(s1, cfg.route, 1);
    assert Enqueue(cfg, s0, text) == (s1, Pass);
    RunStep(cfg, s0, calls, 0, s0, []);
    assert Perform(cfg, s0, calls[0]) == (s1, Enqueued(Pass));
    var one: seq<Outcome> := [];
    assert one + [Enqueued(Pass)] == [Enqueued(Pass)];
    SweepEnd(s1, cfg.route, 0);
    assert s1.outputs[c] == [t];
    NextStep(cfg, s1, c, s1);
    assert s1.outputs[c := [t][1..]] == s0.outputs;
    assert Perform(cfg, s1, calls[1]) == (s0, Returned(Ok(cfg.json.stringify(t))));
    RunStep(cfg, s0, calls, 1, s1, [Enqueued(Pass)]);
    assert [Enqueued(Pass)] + [Returned(Ok(cfg.json.stringify(t)))] == [Enqueued(Pass), Returned(Ok(cfg.json.stringify(t)))];
    assert Run(cfg, s0, calls) == RunUpTo(cfg, s0, calls, 2);
  }

  /** '_special case': the message comes out of channel 0 with its
      `_special` field intact. */
  lemma SpecialCase(digest: Value -> string, json: Codec)
    requires json.parse(SPECIAL_TEXT)
          == Some(SPECIAL_ALONE)
    ensures var out := SpecialAloneOut(digest);
      && Get(out, "_special") == Some(Str("nonempty"))
      && Run(ExampleConfig(digest, json), Initial(NUM_OUT_QUEUES),
             [Enq(SPECIAL_TEXT), NextOf(0)]).1
         == [Enqueued(Pass), Returned(Ok(json.stringify(out)))]
  {
    var out := SpecialAloneOut(digest);
    SpecialAloneRouted(digest, out);
    TransformSpecialAlone(digest);
    SingleCase(ExampleConfig(digest, json), SPECIAL_TEXT, SPECIAL_ALONE, out, 0);
  }

  lemma SpecialAloneRouted(digest: Value -> string, out: Value)
    requires out == SpecialAloneOut(digest)
    ensures Get(out, "_special") == Some(Str("nonempty")) && RoutedTo(ExampleRoute, out, 0)
  {
    DispatchSpecialAlone(digest);
    LookupAt(out.fields, "_special", 0);
    Unsequenced(out, 0);
  }

  /** 'IntegerNegation case': channel 3 returns `int_value` as -513. */
  lemma IntegerNegationCase(digest: Value -> string, json: Codec)
    requires json.parse(INT_TEXT) == Some(MSG_INT)
    ensures Get(MSG_INT_OUT, "int_value") == Some(Num(-513.0))
    ensures Run(ExampleConfig(digest, json), Initial(NUM_OUT_QUEUES), [Enq(INT_TEXT), NextOf(3)]).1
         == [Enqueued(Pass), Returned(Ok(json.stringify(MSG_INT_OUT)))]
  {
    TransformMessageInt(digest);
    DispatchMessageInt();
    LookupAt(MSG_INT_OUT.fields, "int_value", 1);
    Unsequenced(MSG_INT_OUT, 3);
    SingleCase(ExampleConfig(digest, json), INT_TEXT, MSG_INT, MSG_INT_OUT, 3);
  }

  /** 'Reversible string case': channel 2 returns "elpmaxE egassem". */
  lemma ReversibleStringCase(digest: Value -> string, json: Codec)
    requires json.parse(EXAMPLE_TEXT) == Some(MSG_EXAMPLE)
    ensures Get(MSG_EXAMPLE_OUT, "test") == Some(Str("elpmaxE egassem"))
    ensures Run(ExampleConfig(digest, json), Initial(NUM_OUT_QUEUES), [Enq(EXAMPLE_TEXT), NextOf(2)]).1
         == [Enqueued(Pass), Returned(Ok(json.stringify(MSG_EXAMPLE_OUT)))]
  {
    TransformMessageExample(digest);
    DispatchMessageExample();
    Unsequenced(MSG_EXAMPLE_OUT, 2);
    SingleCase(ExampleConfig(digest, json), EXAMPLE_TEXT, MSG_EXAMPLE, MSG_EXAMPLE_OUT, 2);
  }

  /** 'Non-reversible string case': channel 4 returns "message" unchanged. */
  lemma NonReversibleStringCase(digest: Value -> string, json: Codec)
    requires json.parse(PLAIN_TEXT) == Some(MSG)
    ensures Get(MSG, "test") == Some(Str("message"))
    ensures Run(ExampleConfig(digest, json), Initial(NUM_OUT_QUEUES), [Enq(PLAIN_TEXT), NextOf(4)]).1
         == [Enqueued(Pass), Returned(Ok(json.stringify(MSG)))]
  {
    TransformMessage(digest);
    DispatchMessage();
    Unsequenced(MSG, 4);
    SingleCase(ExampleConfig(digest, json), PLAIN_TEXT, MSG, MSG, 4);
  }

  /** '_hash case': channel 1 returns the message with `hash` set to the
      digest of its `str`. The text is whatever JSON.stringify made of
      the object. */
  lemma HashCase(digest: Value -> string, json: Codec, text: string)
    requires json.parse(text) == Some(HASHED_ALONE)
    ensures Get(HashedAloneOut(digest), "hash") == Some(Str(digest(Str(UCS2))))
    ensures Run(ExampleConfig(digest, json), Initial(NUM_OUT_QUEUES), [Enq(text), NextOf(1)]).1
         == [Enqueued(Pass), Returned(Ok(json.stringify(HashedAloneOut(digest))))]
  {
    var out := HashedAloneOut(digest);
    TransformHashedAlone(digest);
    DispatchHashedAlone(digest);
    LookupAt(out.fields, "hash", 4);
    Unsequenced(out, 1);
    SingleCase(ExampleConfig(digest, json), text, HASHED_ALONE, out, 1);
  }
}
