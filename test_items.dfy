/** The messages of test/test.js as decoded values, and what exampleTransform
    and exampleDispatch make of them. The digest of the `_hash` step stays a
    parameter. */
module TestItems {
  import opened Values
  import opened Strategies

  const SEQ_ID: Value := Str("seqid_0")

  /** `'𐀁\xA9𐀀𐹭'`, as code points. */
  const UCS2: string := "\U{10001}©\U{10000}\U{10E6D}"

  /** A part of the sequence "seqid_0" with a `test` field. */
  function SeqPart(part: int, test: string): Value {
    Obj([("_sequence", SEQ_ID), ("_part", Num(part as real)), ("test", Str(test))])
  }

  // The objects of the 'mixed case with _sequence' test, in order.
  const SPECIAL: Value :=
    Obj([("_special", Str("nonempty")), ("int_value", Num(512.0)), ("str", Str("234asdf")), ("_hash", Str("str"))])
  const PART5: Value := SeqPart(5, "non reverse 5")
  const PART3: Value := SeqPart(3, "non reverse 3")
  const PART2: Value := SeqPart(2, "non reverse 2")
  const PART0: Value :=
    Obj([("_sequence", SEQ_ID), ("_part", Num(0.0)), ("test", Str("reverse Example")), ("intcase", Num(64.0))])
  const PART1: Value := SeqPart(1, "non reverse 1")
  const MSG_EXAMPLE: Value := Obj([("test", Str("message Example"))])
  const MSG_INT: Value := Obj([("test", Str("message")), ("int_value", Num(512.0))])
  const MSG: Value := Obj([("test", Str("message"))])
  const HASHED: Value :=
    Obj([("test", Str("not reverse")), ("str", Str(UCS2)), ("int_value", Num(512.0)), ("_hash", Str("str"))])

  function MixedObjects(): seq<Value> {
    [SPECIAL, PART5, PART3, PART2, PART0, PART1, MSG_EXAMPLE, MSG_INT, MSG, HASHED]
  }

  // What exampleTransform makes of them.
  function SpecialOut(digest: Value -> string): Value {
    Obj([("_special", Str("nonempty")), ("int_value", Num(-513.0)), ("str", Str("234asdf")), ("_hash", Str("str")),
         ("hash", Str(digest(Str("234asdf"))))])
  }
  const PART0_OUT: Value :=
    Obj([("_sequence", SEQ_ID), ("_part", Num(0.0)), ("test", Str("elpmaxE esrever")), ("intcase", Num(-65.0))])
  const MSG_EXAMPLE_OUT: Value := Obj([("test", Str("elpmaxE egassem"))])
  const MSG_INT_OUT: Value := Obj([("test", Str("message")), ("int_value", Num(-513.0))])
  function HashedOut(digest: Value -> string): Value {
    Obj([("test", Str("not reverse")), ("str", Str(UCS2)), ("int_value", Num(-513.0)), ("_hash", Str("str")),
         ("hash", Str(digest(Str(UCS2))))])
  }

  function MixedTransformed(digest: Value -> string): seq<Value> {
    [SpecialOut(digest), PART5, PART3, PART2, PART0_OUT, PART1, MSG_EXAMPLE_OUT, MSG_INT_OUT, MSG, HashedOut(digest)]
  }

  lemma NoExample(s: string)
    requires 'E' !in s
    ensures !Contains(s, "Example") && !Contains(s, "elpmaxE")
  {
    MissingCharNotContained(s, "Example", 'E');
    MissingCharNotContained(s, "elpmaxE", 'E');
  }

  lemma UpToStep(digest: Value -> string, fields: seq<Field>, i: nat, cur: seq<Field>)
    requires i < |fields| && TransformUpTo(digest, fields, i) == Ok(cur)
    ensures i < |cur| && TransformUpTo(digest, fields, i + 1) == VisitField(digest, cur, i)
  {
  }

  lemma VisitPlain(digest: Value -> string, fields: seq<Field>, i: nat)
    requires i < |fields| && !Underscored(fields[i].0)
    ensures VisitField(digest, fields, i) == Ok(fields[i := (fields[i].0, TransformValue(fields[i].1))])
  {
  }

  lemma VisitSkipped(digest: Value -> string, fields: seq<Field>, i: nat)
    requires i < |fields| && Underscored(fields[i].0) && fields[i].0 != "_hash"
    ensures VisitField(digest, fields, i) == Ok(fields)
  {
  }

  lemma VisitHash(digest: Value -> string, fields: seq<Field>, i: nat, target: string, v: Value)
    requires i < |fields| && fields[i] == ("_hash", Str(target))
    requires Lookup(fields, target) == Some(v) && v != Null
    requires "hash" !in Keys(fields)
    ensures VisitField(digest, fields, i) == Ok(fields + [("hash", Str(digest(v)))])
  {
    SetFieldAppends(fields, "hash", Str(digest(v)));
  }

  lemma {:induction false} LookupAt(fields: seq<Field>, key: string, i: nat)
    requires i < |fields| && fields[i].0 == key
    requires forall j :: 0 <= j < i ==> fields[j].0 != key
    ensures Lookup(fields, key) == Some(fields[i].1)
  {
    if i > 0 {
      LookupAt(fields[1..], key, i - 1);
    }
  }

  lemma NoKey(fields: seq<Field>, key: string)
    requires forall j :: 0 <= j < |fields| ==> fields[j].0 != key
    ensures key !in Keys(fields)
  {
  }

  /** A message whose last field is `_hash`: the loop ends by appending
      the digest of the named value. */
  lemma FinishWithHash(digest: Value -> string, f: seq<Field>, cur: seq<Field>, target: string, v: Value)
    requires f != [] && TransformUpTo(digest, f, |f| - 1) == Ok(cur) && |cur| == |f|
    requires cur[|f| - 1] == ("_hash", Str(target)) && Lookup(cur, target) == Some(v) && v != Null
    requires "hash" !in Keys(cur)
    ensures Transform(digest, Obj(f)) == Ok(Obj(cur + [("hash", Str(digest(v)))]))
  {
    var i := |f| - 1;
    VisitHash(digest, cur, i, target, v);
    UpToStep(digest, f, i, cur);
    assert TransformUpTo(digest, f, i + 1) == Ok(cur + [("hash", Str(digest(v)))]);
  }

  lemma KeepString(s: string)
    requires 'E' !in s
    ensures TransformValue(Str(s)) == Str(s)
  {
    NoExample(s);
  }

  lemma NegateInt(n: int)
    requires -0x8000_0000 <= n < 0x8000_0000
    ensures TransformValue(Num(n as real)) == Num((-n - 1) as real)
  {
    assert IsIntegral(n as real);
    BitNotIsNegateMinusOne(n);
  }

  /** Reverse, checked character by character rather than unfolded. */
  lemma ReversedPointwise(s: string, t: string)
    requires |s| == |t| && forall i :: 0 <= i < |s| ==> t[i] == s[|s| - 1 - i]
    ensures Reverse(s) == t
  {
  }

  lemma ReversesTo(s: string, t: string, i: nat)
    requires OccursAt(s, "Example", i)
    requires |s| == |t| && forall k :: 0 <= k < |s| ==> t[k] == s[|s| - 1 - k]
    ensures TransformValue(Str(s)) == Str(t)
  {
    ContainsIffOccurs(s, "Example");
    ReversedPointwise(s, t);
  }

  // The transforms below are stated over the strings and numbers of each
  // object, so that the solver never has to evaluate the string functions
  // on the literals of the test.

  /** The first three visits to a `_special` message; the fields after
      `_hash` are not reached. */
  lemma SpecialFirstVisits(digest: Value -> string, tag: string, n: int, str: string, rest: seq<Field>)
    requires 'E' !in str && -0x8000_0000 <= n < 0x8000_0000
    ensures TransformUpTo(digest, [("_special", Str(tag)), ("int_value", Num(n as real)), ("str", Str(str)), ("_hash", Str("str"))] + rest, 3)
         == Ok([("_special", Str(tag)), ("int_value", Num((-n - 1) as real)), ("str", Str(str)), ("_hash", Str("str"))] + rest)
  {
    var f := [("_special", Str(tag)), ("int_value", Num(n as real)), ("str", Str(str)), ("_hash", Str("str"))] + rest;
    VisitSkipped(digest, f, 0);
    UpToStep(digest, f, 0, f);
    var f2 := [("_special", Str(tag)), ("int_value", Num((-n - 1) as real)), ("str", Str(str)), ("_hash", Str("str"))] + rest;
    NegateInt(n);
    VisitPlain(digest, f, 1);
    assert f[1 := ("int_value", Num((-n - 1) as real))] == f2;
    UpToStep(digest, f, 1, f);
    KeepString(str);
    VisitPlain(digest, f2, 2);
    assert f2[2 := ("str", Str(str))] == f2;
    UpToStep(digest, f, 2, f2);
  }

  lemma TransformSpecialShape(digest: Value -> string, tag: string, n: int, str: string)
    requires 'E' !in str && -0x8000_0000 <= n < 0x8000_0000
    ensures var f := [("_special", Str(tag)), ("int_value", Num(n as real)), ("str", Str(str)), ("_hash", Str("str"))];
      var f2 := [("_special", Str(tag)), ("int_value", Num((-n - 1) as real)), ("str", Str(str)), ("_hash", Str("str"))];
      Transform(digest, Obj(f)) == Ok(Obj(f2 + [("hash", Str(digest(Str(str))))]))
  {
    var f := [("_special", Str(tag)), ("int_value", Num(n as real)), ("str", Str(str)), ("_hash", Str("str"))];
    var f2 := [("_special", Str(tag)), ("int_value", Num((-n - 1) as real)), ("str", Str(str)), ("_hash", Str("str"))];
    SpecialFirstVisits(digest, tag, n, str, []);
    assert f + [] == f && f2 + [] == f2;
    NoKey(f2, "hash");
    LookupAt(f2, "str", 2);
    FinishWithHash(digest, f, f2, "str", Str(str));
  }

  /** A `_special` message with one more underscored field after `_hash`:
      `hash` is appended during the visit to `_hash`, and the last visit
      leaves the message as it is. */
  lemma TransformSpecialOtherShape(digest: Value -> string, tag: string, n: int, str: string, key: string, o: Value)
    requires 'E' !in str && -0x8000_0000 <= n < 0x8000_0000
    requires Underscored(key) && key != "_hash" && key != "hash" && key != "str"
    ensures var f := [("_special", Str(tag)), ("int_value", Num(n as real)), ("str", Str(str)), ("_hash", Str("str")), (key, o)];
      var f2 := [("_special", Str(tag)), ("int_value", Num((-n - 1) as real)), ("str", Str(str)), ("_hash", Str("str")), (key, o)];
      Transform(digest, Obj(f)) == Ok(Obj(f2 + [("hash", Str(digest(Str(str))))]))
  {
    var f := [("_special", Str(tag)), ("int_value", Num(n as real)), ("str", Str(str)), ("_hash", Str("str")), (key, o)];
    var f2 := [("_special", Str(tag)), ("int_value", Num((-n - 1) as real)), ("str", Str(str)), ("_hash", Str("str")), (key, o)];
    SpecialFirstVisits(digest, tag, n, str, [(key, o)]);
    assert [("_special", Str(tag)), ("int_value", Num(n as real)), ("str", Str(str)), ("_hash", Str("str"))] + [(key, o)] == f;
    assert [("_special", Str(tag)), ("int_value", Num((-n - 1) as real)), ("str", Str(str)), ("_hash", Str("str"))] + [(key, o)] == f2;
    NoKey(f2, "hash");
    LookupAt(f2, "str", 2);
    var f3 := f2 + [("hash", Str(digest(Str(str))))];
    VisitHash(digest, f2, 3, "str", Str(str));
    UpToStep(digest, f, 3, f2);
    VisitSkipped(digest, f3, 4);
    UpToStep(digest, f, 4, f3);
  }

  lemma TransformSpecial(digest: Value -> string)
    ensures Transform(digest, SPECIAL) == Ok(SpecialOut(digest))
  {
    TransformSpecialShape(digest, "nonempty", 512, "234asdf");
    assert SPECIAL == Obj([("_special", Str("nonempty")), ("int_value", Num(512 as real)), ("str", Str("234asdf")), ("_hash", Str("str"))]);
    assert SpecialOut(digest).fields
        == [("_special", Str("nonempty")), ("int_value", Num((-512 - 1) as real)), ("str", Str("234asdf")), ("_hash", Str("str"))]
           + [("hash", Str(digest(Str("234asdf"))))];
  }

  lemma TransformSeqPart(digest: Value -> string, part: int, test: string)
    requires 'E' !in test
    ensures Transform(digest, SeqPart(part, test)) == Ok(SeqPart(part, test))
  {
    var f := SeqPart(part, test).fields;
    VisitSkipped(digest, f, 0);
    UpToStep(digest, f, 0, f);
    VisitSkipped(digest, f, 1);
    UpToStep(digest, f, 1, f);
    KeepString(test);
    VisitPlain(digest, f, 2);
    assert f[2 := ("test", Str(test))] == f;
    UpToStep(digest, f, 2, f);
  }

  lemma TransformPart0Shape(digest: Value -> string, part: int, s: string, t: string, i: nat, n: int)
    requires OccursAt(s, "Example", i)
    requires |s| == |t| && forall k :: 0 <= k < |s| ==> t[k] == s[|s| - 1 - k]
    requires -0x8000_0000 <= n < 0x8000_0000
    ensures Transform(digest, Obj([("_sequence", SEQ_ID), ("_part", Num(part as real)), ("test", Str(s)), ("intcase", Num(n as real))]))
         == Ok(Obj([("_sequence", SEQ_ID), ("_part", Num(part as real)), ("test", Str(t)), ("intcase", Num((-n - 1) as real))]))
  {
    var f := [("_sequence", SEQ_ID), ("_part", Num(part as real)), ("test", Str(s)), ("intcase", Num(n as real))];
    VisitSkipped(digest, f, 0);
    UpToStep(digest, f, 0, f);
    VisitSkipped(digest, f, 1);
    UpToStep(digest, f, 1, f);
    ReversesTo(s, t, i);
    VisitPlain(digest, f, 2);
    var f3 := [("_sequence", SEQ_ID), ("_part", Num(part as real)), ("test", Str(t)), ("intcase", Num(n as real))];
    assert f[2 := ("test", Str(t))] == f3;
    UpToStep(digest, f, 2, f);
    NegateInt(n);
    VisitPlain(digest, f3, 3);
    assert f3[3 := ("intcase", Num((-n - 1) as real))]
        == [("_sequence", SEQ_ID), ("_part", Num(part as real)), ("test", Str(t)), ("intcase", Num((-n - 1) as real))];
    UpToStep(digest, f, 3, f3);
  }

  lemma TransformPart0(digest: Value -> string)
    ensures Transform(digest, PART0) == Ok(PART0_OUT)
  {
    assert OccursAt("reverse Example", "Example", 8);
    TransformPart0Shape(digest, 0, "reverse Example", "elpmaxE esrever", 8, 64);
  }

  lemma TransformReversedShape(digest: Value -> string, s: string, t: string, i: nat)
    requires OccursAt(s, "Example", i)
    requires |s| == |t| && forall k :: 0 <= k < |s| ==> t[k] == s[|s| - 1 - k]
    ensures Transform(digest, Obj([("test", Str(s))])) == Ok(Obj([("test", Str(t))]))
  {
    var f := [("test", Str(s))];
    ReversesTo(s, t, i);
    VisitPlain(digest, f, 0);
    assert f[0 := ("test", Str(t))] == [("test", Str(t))];
    UpToStep(digest, f, 0, f);
  }

  lemma TransformMessageExample(digest: Value -> string)
    ensures Transform(digest, MSG_EXAMPLE) == Ok(MSG_EXAMPLE_OUT)
  {
    TransformReversedShape(digest, "message Example", "elpmaxE egassem", 8);
  }

  lemma TransformIntShape(digest: Value -> string, s: string, n: int)
    requires 'E' !in s && -0x8000_0000 <= n < 0x8000_0000
    ensures Transform(digest, Obj([("test", Str(s)), ("int_value", Num(n as real))]))
         == Ok(Obj([("test", Str(s)), ("int_value", Num((-n - 1) as real))]))
  {
    var f := [("test", Str(s)), ("int_value", Num(n as real))];
    KeepString(s);
    VisitPlain(digest, f, 0);
    assert f[0 := ("test", Str(s))] == f;
    UpToStep(digest, f, 0, f);
    NegateInt(n);
    VisitPlain(digest, f, 1);
    assert f[1 := ("int_value", Num((-n - 1) as real))] == [("test", Str(s)), ("int_value", Num((-n - 1) as real))];
    UpToStep(digest, f, 1, f);
  }

  lemma TransformMessageInt(digest: Value -> string)
    ensures Transform(digest, MSG_INT) == Ok(MSG_INT_OUT)
  {
    TransformIntShape(digest, "message", 512);
  }

  lemma TransformKeptShape(digest: Value -> string, s: string)
    requires 'E' !in s
    ensures Transform(digest, Obj([("test", Str(s))])) == Ok(Obj([("test", Str(s))]))
  {
    var f := [("test", Str(s))];
    KeepString(s);
    VisitPlain(digest, f, 0);
    assert f[0 := ("test", Str(s))] == f;
    UpToStep(digest, f, 0, f);
  }

  lemma TransformMessage(digest: Value -> string)
    ensures Transform(digest, MSG) == Ok(MSG)
  {
    TransformKeptShape(digest, "message");
  }

  lemma HashedFirstVisits(digest: Value -> string, s: string, str: string, n: int)
    requires 'E' !in s && 'E' !in str && -0x8000_0000 <= n < 0x8000_0000
    ensures TransformUpTo(digest, [("test", Str(s)), ("str", Str(str)), ("int_value", Num(n as real)), ("_hash", Str("str"))], 3)
         == Ok([("test", Str(s)), ("str", Str(str)), ("int_value", Num((-n - 1) as real)), ("_hash", Str("str"))])
  {
    var f := [("test", Str(s)), ("str", Str(str)), ("int_value", Num(n as real)), ("_hash", Str("str"))];
    KeepString(s);
    VisitPlain(digest, f, 0);
    assert f[0 := ("test", Str(s))] == f;
    UpToStep(digest, f, 0, f);
    KeepString(str);
    VisitPlain(digest, f, 1);
    assert f[1 := ("str", Str(str))] == f;
    UpToStep(digest, f, 1, f);
    NegateInt(n);
    VisitPlain(digest, f, 2);
    assert f[2 := ("int_value", Num((-n - 1) as real))]
        == [("test", Str(s)), ("str", Str(str)), ("int_value", Num((-n - 1) as real)), ("_hash", Str("str"))];
    UpToStep(digest, f, 2, f);
  }

  lemma TransformHashedShape(digest: Value -> string, s: string, str: string, n: int)
    requires 'E' !in s && 'E' !in str && -0x8000_0000 <= n < 0x8000_0000
    ensures var f := [("test", Str(s)), ("str", Str(str)), ("int_value", Num(n as real)), ("_hash", Str("str"))];
      var f3 := [("test", Str(s)), ("str", Str(str)), ("int_value", Num((-n - 1) as real)), ("_hash", Str("str"))];
      Transform(digest, Obj(f)) == Ok(Obj(f3 + [("hash", Str(digest(Str(str))))]))
  {
    var f := [("test", Str(s)), ("str", Str(str)), ("int_value", Num(n as real)), ("_hash", Str("str"))];
    var f3 := [("test", Str(s)), ("str", Str(str)), ("int_value", Num((-n - 1) as real)), ("_hash", Str("str"))];
    HashedFirstVisits(digest, s, str, n);
    NoKey(f3, "hash");
    LookupAt(f3, "str", 1);
    FinishWithHash(digest, f, f3, "str", Str(str));
  }

  lemma TransformHashed(digest: Value -> string)
    ensures Transform(digest, HASHED) == Ok(HashedOut(digest))
  {
    TransformHashedShape(digest, "not reverse", UCS2, 512);
    assert HASHED == Obj([("test", Str("not reverse")), ("str", Str(UCS2)), ("int_value", Num(512 as real)), ("_hash", Str("str"))]);
    assert HashedOut(digest).fields
        == [("test", Str("not reverse")), ("str", Str(UCS2)), ("int_value", Num((-512 - 1) as real)), ("_hash", Str("str"))]
           + [("hash", Str(digest(Str(UCS2))))];
  }

  /** exampleTransform turns each object of the test into the matching
      transformed value. */
  lemma TransformMixed(digest: Value -> string)
    ensures forall k :: 0 <= k < 10 ==> Transform(digest, MixedObjects()[k]) == Ok(MixedTransformed(digest)[k])
  {
    forall k | 0 <= k < 10
      ensures Transform(digest, MixedObjects()[k]) == Ok(MixedTransformed(digest)[k])
    {
      if k == 0 {
        assert MixedObjects()[0] == SPECIAL && MixedTransformed(digest)[0] == SpecialOut(digest);
        TransformSpecial(digest);
      } else if k < 5 {
        TransformMixedLow(digest, k);
      } else {
        TransformMixedHigh(digest, k);
      }
    }
  }

  lemma TransformMixedLow(digest: Value -> string, k: nat)
    requires 1 <= k < 5
    ensures Transform(digest, MixedObjects()[k]) == Ok(MixedTransformed(digest)[k])
  {
    var objs, outs := MixedObjects(), MixedTransformed(digest);
    if k == 1 { assert objs[1] == outs[1] == SeqPart(5, "non reverse 5"); TransformSeqPart(digest, 5, "non reverse 5"); }
    else if k == 2 { assert objs[2] == outs[2] == SeqPart(3, "non reverse 3"); TransformSeqPart(digest, 3, "non reverse 3"); }
    else if k == 3 { assert objs[3] == outs[3] == SeqPart(2, "non reverse 2"); TransformSeqPart(digest, 2, "non reverse 2"); }
    else { assert objs[4] == PART0 && outs[4] == PART0_OUT; TransformPart0(digest); }
  }

  lemma TransformMixedHigh(digest: Value -> string, k: nat)
    requires 5 <= k < 10
    ensures Transform(digest, MixedObjects()[k]) == Ok(MixedTransformed(digest)[k])
  {
    var objs, outs := MixedObjects(), MixedTransformed(digest);
    if k == 5 { assert objs[5] == outs[5] == SeqPart(1, "non reverse 1"); TransformSeqPart(digest, 1, "non reverse 1"); }
    else if k == 6 { assert objs[6] == MSG_EXAMPLE && outs[6] == MSG_EXAMPLE_OUT; TransformMessageExample(digest); }
    else if k == 7 { assert objs[7] == MSG_INT && outs[7] == MSG_INT_OUT; TransformMessageInt(digest); }
    else if k == 8 { assert objs[8] == outs[8] == MSG; TransformMessage(digest); }
    else { assert objs[9] == HASHED && outs[9] == HashedOut(digest); TransformHashed(digest); }
  }

  /** No field named `key`: the property is undefined. */
  lemma Absent(fields: seq<Field>, key: string)
    requires forall j :: 0 <= j < |fields| ==> fields[j].0 != key
    ensures Lookup(fields, key) == None
  {
    NoKey(fields, key);
  }

  lemma Mentions(s: string, i: nat)
    requires OccursAt(s, "elpmaxE", i)
    ensures Classify(Str(s)) == Some(2)
  {
    ContainsIffOccurs(s, "elpmaxE");
  }

  lemma DispatchSpecial(digest: Value -> string)
    ensures ExampleDispatch(SpecialOut(digest)) == 0
  {
    LookupAt(SpecialOut(digest).fields, "_special", 0);
  }

  lemma DispatchPart0()
    ensures ExampleDispatch(PART0_OUT) == 2
  {
    var f := PART0_OUT.fields;
    Absent(f, "_special");
    Absent(f, "hash");
    Mentions("elpmaxE esrever", 0);
    assert DispatchFields(f[2..]) == 2;
    assert DispatchFields(f) == DispatchFields(f[1..]) == DispatchFields(f[2..]);
  }

  lemma DispatchMessageExample()
    ensures ExampleDispatch(MSG_EXAMPLE_OUT) == 2
  {
    var f := MSG_EXAMPLE_OUT.fields;
    Absent(f, "_special");
    Absent(f, "hash");
    Mentions("elpmaxE egassem", 0);
  }

  lemma DispatchMessageInt()
    ensures ExampleDispatch(MSG_INT_OUT) == 3
  {
    var f := MSG_INT_OUT.fields;
    Absent(f, "_special");
    Absent(f, "hash");
    NoExample("message");
    assert Classify(f[0].1) == None;
    assert IsIntegral(-513.0);
    assert Classify(f[1].1) == Some(3);
    assert f[1..][0] == f[1];
    assert DispatchFields(f) == DispatchFields(f[1..]) == 3;
  }

  lemma DispatchMessage()
    ensures ExampleDispatch(MSG) == 4
  {
    var f := MSG.fields;
    Absent(f, "_special");
    Absent(f, "hash");
    NoExample("message");
    assert DispatchFields(f[1..]) == 4;
  }

  lemma DispatchHashed(digest: Value -> string)
    ensures ExampleDispatch(HashedOut(digest)) == 1
  {
    var f := HashedOut(digest).fields;
    Absent(f, "_special");
    LookupAt(f, "hash", 4);
  }

  // ---------------------------------------------------------------------
  // The single-message tests

  /** The message of the '_special case' test, with its extra `_other`. */
  const SPECIAL_ALONE: Value :=
    Obj([("_special", Str("nonempty")), ("int_value", Num(512.0)), ("str", Str("234asdf")), ("_hash", Str("str")),
         ("_other", Str("misc"))])

  function SpecialAloneOut(digest: Value -> string): Value {
    Obj([("_special", Str("nonempty")), ("int_value", Num(-513.0)), ("str", Str("234asdf")), ("_hash", Str("str")),
         ("_other", Str("misc")), ("hash", Str(digest(Str("234asdf"))))])
  }

  /** The object of the '_hash case' test. */
  const HASHED_ALONE: Value :=
    Obj([("test", Str("some string to not reverse")), ("str", Str(UCS2)), ("int_value", Num(512.0)), ("_hash", Str("str"))])

  function HashedAloneOut(digest: Value -> string): Value {
    Obj([("test", Str("some string to not reverse")), ("str", Str(UCS2)), ("int_value", Num(-513.0)), ("_hash", Str("str")),
         ("hash", Str(digest(Str(UCS2))))])
  }

  lemma TransformSpecialAlone(digest: Value -> string)
    ensures Transform(digest, SPECIAL_ALONE) == Ok(SpecialAloneOut(digest))
  {
    TransformSpecialOtherShape(digest, "nonempty", 512, "234asdf", "_other", Str("misc"));
    assert SPECIAL_ALONE == Obj([("_special", Str("nonempty")), ("int_value", Num(512 as real)), ("str", Str("234asdf")),
                                 ("_hash", Str("str")), ("_other", Str("misc"))]);
    assert SpecialAloneOut(digest).fields
        == [("_special", Str("nonempty")), ("int_value", Num((-512 - 1) as real)), ("str", Str("234asdf")), ("_hash", Str("str")),
            ("_other", Str("misc"))] + [("hash", Str(digest(Str("234asdf"))))];
  }

  lemma TransformHashedAlone(digest: Value -> string)
    ensures Transform(digest, HASHED_ALONE) == Ok(HashedAloneOut(digest))
  {
    TransformHashedShape(digest, "some string to not reverse", UCS2, 512);
    assert HASHED_ALONE == Obj([("test", Str("some string to not reverse")), ("str", Str(UCS2)), ("int_value", Num(512 as real)), ("_hash", Str("str"))]);
    assert HashedAloneOut(digest).fields
        == [("test", Str("some string to not reverse")), ("str", Str(UCS2)), ("int_value", Num((-512 - 1) as real)), ("_hash", Str("str"))]
           + [("hash", Str(digest(Str(UCS2))))];
  }

  lemma DispatchSpecialAlone(digest: Value -> string)
    ensures ExampleDispatch(SpecialAloneOut(digest)) == 0
  {
    LookupAt(SpecialAloneOut(digest).fields, "_special", 0);
  }

  lemma DispatchHashedAlone(digest: Value -> string)
    ensures ExampleDispatch(HashedAloneOut(digest)) == 1
  {
    var f := HashedAloneOut(digest).fields;
    Absent(f, "_special");
    LookupAt(f, "hash", 4);
  }
}
