/** The example strategies the service is built with: exampleDispatch, a
    read-only search over a message's fields, and exampleTransform, which
    rewrites the fields of a message one after the other. The digest of the
    `_hash` step (sha256 of base64 of UTF-8) is a parameter. */
module Strategies {
  import opened Values

  /** nOutQ, the number of output queues of the example service. */
  const NUM_OUT_QUEUES := 5

  /** `s.match(t) != null` for a pattern without special characters. */
  predicate Contains(s: string, t: string)
    decreases |s|
  {
    t <= s || (s != [] && Contains(s[1..], t))
  }

  /** `s.split('').reverse().join('')`. */
  function Reverse(s: string): (r: string)
    ensures |r| == |s|
    ensures forall i :: 0 <= i < |s| ==> r[i] == s[|s| - 1 - i]
  {
    if s == [] then [] else Reverse(s[1..]) + [s[0]]
  }

  /** `key[0] == '_'`; an empty key has no first character. */
  predicate Underscored(key: string) {
    key != [] && key[0] == '_'
  }

  // ---------------------------------------------------------------------
  // exampleDispatch

  /** What one field not starting with `_` says about the route: 2 for a
      string containing "elpmaxE", 3 for an integer, nothing otherwise. */
  function Classify(v: Value): Option<int> {
    match v
    case Str(s) => if Contains(s, "elpmaxE") then Some(2) else None
    case Num(x) => if IsIntegral(x) then Some(3) else None
    case _ => None
  }

  /** The loop of exampleDispatch from the first field on. */
  function DispatchFields(fields: seq<Field>): (c: int)
    ensures 2 <= c <= 4
  {
    if fields == [] then 4
    else if Underscored(fields[0].0) then DispatchFields(fields[1..])
    else
      match Classify(fields[0].1)
      case Some(c) => c
      case None => DispatchFields(fields[1..])
  }

  /** exampleDispatch: always the index of one of the NUM_OUT_QUEUES queues. */
  function ExampleDispatch(out: Value): (c: int)
    ensures 0 <= c < NUM_OUT_QUEUES
    ensures c == 0 <==> Present(Get(out, "_special"))
    ensures c == 1 <==> !Present(Get(out, "_special")) && Present(Get(out, "hash"))
  {
    if Present(Get(out, "_special")) then 0
    else if Present(Get(out, "hash")) then 1
    else if out.Obj? then DispatchFields(out.fields)
    else 4
  }

  /** exampleDispatch as the router of a service; it never throws. */
  function ExampleRoute(out: Value): Result<int> {
    Ok(ExampleDispatch(out))
  }

  /** A field that the loop of exampleDispatch decides on. */
  predicate Decides(f: Field) {
    !Underscored(f.0) && Classify(f.1).Some?
  }

  /** The loop returns the verdict of the first deciding field, and 4 when
      no field decides. */
  lemma {:induction false} DispatchFieldsFirstDecider(fields: seq<Field>)
    ensures DispatchFields(fields) == 4 <==> forall j :: 0 <= j < |fields| ==> !Decides(fields[j])
    ensures DispatchFields(fields) != 4 ==>
      exists j :: 0 <= j < |fields| && Decides(fields[j])
        && Classify(fields[j].1) == Some(DispatchFields(fields))
        && forall k :: 0 <= k < j ==> !Decides(fields[k])
  {
    if fields != [] {
      DispatchFieldsFirstDecider(fields[1..]);
      if Decides(fields[0]) {
        assert DispatchFields(fields) == Classify(fields[0].1).value;
      } else {
        assert DispatchFields(fields) == DispatchFields(fields[1..]);
        if DispatchFields(fields) != 4 {
          var j :| 0 <= j < |fields[1..]| && Decides(fields[1..][j])
            && Classify(fields[1..][j].1) == Some(DispatchFields(fields[1..]))
            && forall k :: 0 <= k < j ==> !Decides(fields[1..][k]);
          assert Decides(fields[j + 1]);
          forall k | 0 <= k < j + 1 ensures !Decides(fields[k]) {
            if k > 0 { assert fields[k] == fields[1..][k - 1]; }
          }
        } else {
          forall j | 0 <= j < |fields| ensures !Decides(fields[j]) {
            if j > 0 { assert fields[j] == fields[1..][j - 1]; }
          }
        }
      }
    }
  }

  /** `t` occurs in `s` at position `i`. */
  predicate OccursAt(s: string, t: string, i: int) {
    0 <= i <= |s| - |t| && s[i..i + |t|] == t
  }

  /** The reference definition of Contains: some slice of `s` equals `t`. */
  lemma {:induction false} ContainsIffOccurs(s: string, t: string)
    ensures Contains(s, t) <==> exists i :: OccursAt(s, t, i)
    decreases |s|
  {
    if t <= s {
      assert OccursAt(s, t, 0);
    } else if s == [] {
      assert forall i :: !OccursAt(s, t, i);
    } else {
      ContainsIffOccurs(s[1..], t);
      if exists i :: OccursAt(s, t, i) {
        var i :| OccursAt(s, t, i);
        assert i != 0;
        assert OccursAt(s[1..], t, i - 1);
      }
      if Contains(s[1..], t) {
        var i :| OccursAt(s[1..], t, i);
        assert OccursAt(s, t, i + 1);
      }
    }
  }

  /** A string lacking one of the characters of `t` does not contain `t`. */
  lemma MissingCharNotContained(s: string, t: string, c: char)
    requires c in t && c !in s
    ensures !Contains(s, t)
  {
    ContainsIffOccurs(s, t);
  }

  /** Reversing a string reverses every string it contains, so a string that
      contains "Example" contains "elpmaxE" once reversed: the transform's
      output is what the router sends to queue 2. */
  lemma ReverseContains(s: string, t: string)
    requires Contains(s, t)
    ensures Contains(Reverse(s), Reverse(t))
  {
    ContainsIffOccurs(s, t);
    var i :| OccursAt(s, t, i);
    var j := |s| - i - |t|;
    assert Reverse(s)[j..j + |t|] == Reverse(t);
    assert OccursAt(Reverse(s), Reverse(t), j);
    ContainsIffOccurs(Reverse(s), Reverse(t));
  }

  lemma ReversedExampleIsRoutedToTwo(s: string)
    requires Contains(s, "Example")
    ensures Classify(Str(Reverse(s))) == Some(2)
  {
    ReverseContains(s, "Example");
    assert Reverse("Example") == "elpmaxE";
  }

  // ---------------------------------------------------------------------
  // exampleTransform

  /** ToInt32 of ECMAScript: the integer modulo 2^32, as a signed value. */
  function ToInt32(n: int): int {
    var m := n % 0x1_0000_0000;
    if m >= 0x8000_0000 then m - 0x1_0000_0000 else m
  }

  /** `~n` on an integral number. */
  function BitNot(n: int): (r: int)
    ensures -0x8000_0000 <= r < 0x8000_0000
  {
    -ToInt32(n) - 1
  }

  /** Within int32, `~v` is `-v-1`. */
  lemma BitNotIsNegateMinusOne(n: int)
    requires -0x8000_0000 <= n < 0x8000_0000
    ensures BitNot(n) == -n - 1
  {
  }

  /** `~` undoes itself up to the int32 truncation of its argument. */
  lemma BitNotTwice(n: int)
    ensures BitNot(BitNot(n)) == ToInt32(n)
  {
  }

  /** The rule for the value of a field whose key does not start with `_`. */
  function TransformValue(v: Value): Value {
    match v
    case Str(s) => if Contains(s, "Example") then Str(Reverse(s)) else v
    case Num(x) => if IsIntegral(x) then Num(BitNot(x.Floor) as real) else v
    case _ => v
  }

  /** What the loop leaves in the field at a given position of the original
      message: underscored fields are passed through, the others rewritten. */
  function Rewritten(f: Field): Value {
    if Underscored(f.0) then f.1 else TransformValue(f.1)
  }

  /** `out[val]` for the value of `_hash`; only a string names a key. */
  function HashTarget(fields: seq<Field>, val: Value): Option<Value> {
    if val.Str? then Lookup(fields, val.s) else None
  }

  /** `out[key] = v`: overwrite the first field named `key`, or append one. */
  function SetField(fields: seq<Field>, key: string, v: Value): (r: seq<Field>)
    ensures |fields| <= |r|
  {
    if fields == [] then [(key, v)]
    else if fields[0].0 == key then [(key, v)] + fields[1..]
    else [fields[0]] + SetField(fields[1..], key, v)
  }

  /** `out[key] = v` keeps every key in place and every field with another
      key; it adds a field exactly when the key is new, at the end. */
  lemma {:induction false} SetFieldSpec(fields: seq<Field>, key: string, v: Value)
    ensures var r := SetField(fields, key, v);
      && |r| == |fields| + (if key in Keys(fields) then 0 else 1)
      && (forall j :: 0 <= j < |fields| ==> r[j].0 == fields[j].0)
      && (forall j :: 0 <= j < |fields| && fields[j].0 != key ==> r[j] == fields[j])
      && (key !in Keys(fields) ==> r[|fields|] == (key, v))
  {
    if fields != [] {
      assert Keys(fields) == [fields[0].0] + Keys(fields[1..]);
      if fields[0].0 != key {
        SetFieldSpec(fields[1..], key, v);
        var r := SetField(fields, key, v);
        forall j | 0 <= j < |fields| ensures r[j].0 == fields[j].0 {
          if j > 0 { assert r[j] == SetField(fields[1..], key, v)[j - 1]; }
        }
      }
    }
  }

  /** One iteration of the loop of exampleTransform, on the field at
      position `i` of the message as it stands. */
  function VisitField(digest: Value -> string, fields: seq<Field>, i: nat): (r: Result<seq<Field>>)
    requires i < |fields|
    ensures r.Ok? ==> |fields| <= |r.value|
  {
    var (key, val) := fields[i];
    if Underscored(key) then
      if key == "_hash" then
        var target := HashTarget(fields, val);
        if !Present(target) then Err(HashKeyMissing)
        else Ok(SetField(fields, "hash", Str(digest(target.value))))
      else Ok(fields)
    else
      Ok(fields[i := (key, TransformValue(val))])
  }

  /** The message after the loop has visited its first `i` keys. Keys added
      during the loop are not visited. */
  function TransformUpTo(digest: Value -> string, fields: seq<Field>, i: nat): (r: Result<seq<Field>>)
    requires i <= |fields|
    ensures r.Ok? ==> |fields| <= |r.value|
  {
    if i == 0 then Ok(fields)
    else
      match TransformUpTo(digest, fields, i - 1)
      case Err(e) => Err(e)
      case Ok(cur) => VisitField(digest, cur, i - 1)
  }

  /** Setting a key the message does not have appends it. */
  lemma SetFieldAppends(fields: seq<Field>, key: string, v: Value)
    requires key !in Keys(fields)
    ensures SetField(fields, key, v) == fields + [(key, v)]
  {
    SetFieldSpec(fields, key, v);
    var r := SetField(fields, key, v);
    forall j | 0 <= j < |fields| ensures r[j] == fields[j] {
      assert Keys(fields)[j] == fields[j].0;
    }
  }

  /** exampleTransform as the transform of a service. A value that is not
      an object has no keys to visit. */
  function Transform(digest: Value -> string, msg: Value): Result<Value> {
    if msg.Obj? then
      match TransformUpTo(digest, msg.fields, |msg.fields|)
      case Err(e) => Err(e)
      case Ok(fs) => Ok(Obj(fs))
    else Ok(msg)
  }

  /** A message that is not an object (a number, a string, an array) comes
      back unchanged: the model gives it no keys to visit. */
  lemma TransformLeavesNonObjects(digest: Value -> string, msg: Value)
    requires !msg.Obj?
    ensures Transform(digest, msg) == Ok(msg)
  {
  }

  /** Once a visit has failed, the loop never resumes. */
  lemma {:induction false} FailureIsFinal(digest: Value -> string, fields: seq<Field>, i: nat, k: nat)
    requires i <= k <= |fields| && TransformUpTo(digest, fields, i).Err?
    ensures TransformUpTo(digest, fields, k) == TransformUpTo(digest, fields, i)
    decreases k - i
  {
    if i < k {
      FailureIsFinal(digest, fields, i, k - 1);
    }
  }

  /** exampleTransform: the `for…in` loop overwriting the message's fields. */
  method ExampleTransform(digest: Value -> string, msg: Value) returns (r: Result<Value>)
    ensures r == Transform(digest, msg)
  {
    if !msg.Obj? {
      return Ok(msg);
    }
    var out := msg.fields;
    var n := |out|;
    var i := 0;
    while i < n
      invariant 0 <= i <= n == |msg.fields| <= |out|
      invariant Ok(out) == TransformUpTo(digest, msg.fields, i)
    {
      ghost var before := out;
      assert TransformUpTo(digest, msg.fields, i + 1) == VisitField(digest, before, i);
      var key := out[i].0;
      var val := out[i].1;
      if Underscored(key) {
        if key == "_hash" {
          var target := HashTarget(out, val);
          if !Present(target) {
            assert TransformUpTo(digest, msg.fields, i + 1) == Err(HashKeyMissing);
            FailureIsFinal(digest, msg.fields, i + 1, n);
            return Err(HashKeyMissing);
          }
          out := SetField(out, "hash", Str(digest(target.value)));
        }
      } else {
        out := out[i := (key, TransformValue(val))];
      }
      assert VisitField(digest, before, i) == Ok(out);
      i := i + 1;
    }
    r := Ok(Obj(out));
  }

  /** The keys of the message stay in place; at most a `hash` field is
      appended after them. */
  predicate KeysKept(fields: seq<Field>, cur: seq<Field>) {
    && |fields| <= |cur| <= |fields| + 1
    && (forall j {:trigger cur[j]} :: 0 <= j < |fields| ==> cur[j].0 == fields[j].0)
    && (|cur| == |fields| + 1 ==>
          cur[|fields|].0 == "hash" && forall j :: 0 <= j < |fields| ==> fields[j].0 != "hash")
  }

  /** The fields before position `i` hold their rewritten values and the
      later ones their original values; a field named `hash` is left out
      of the claim when `allKeys` is false. */
  predicate ValuesAt(fields: seq<Field>, cur: seq<Field>, i: nat, allKeys: bool)
    requires |fields| <= |cur|
  {
    forall j {:trigger cur[j]} :: 0 <= j < |fields| && (allKeys || fields[j].0 != "hash") ==>
      cur[j].1 == if j < i then Rewritten(fields[j]) else fields[j].1
  }

  /** No `_hash` key among the first `i` fields. */
  predicate NoHashKeyBefore(fields: seq<Field>, i: nat) {
    forall j :: 0 <= j < i && j < |fields| ==> fields[j].0 != "_hash"
  }

  /** What the loop has made of the message after `i` visits. */
  predicate Shape(fields: seq<Field>, cur: seq<Field>, i: nat) {
    && KeysKept(fields, cur)
    && ValuesAt(fields, cur, i, false)
    && (NoHashKeyBefore(fields, i) ==> |cur| == |fields| && ValuesAt(fields, cur, i, true))
  }

  /** A visit to a field not starting with `_` rewrites that field only. */
  lemma VisitPlainKeepsShape(fields: seq<Field>, cur: seq<Field>, i: nat)
    requires i < |fields| && Shape(fields, cur, i) && !Underscored(cur[i].0)
    ensures Shape(fields, cur[i := (cur[i].0, TransformValue(cur[i].1))], i + 1)
  {
    var next := cur[i := (cur[i].0, TransformValue(cur[i].1))];
    assert cur[i].0 == fields[i].0;
    forall j | 0 <= j < |fields| && fields[j].0 != "hash"
      ensures next[j].1 == if j < i + 1 then Rewritten(fields[j]) else fields[j].1
    {
      if j == i {
        assert cur[i].1 == fields[i].1;
      }
    }
    if NoHashKeyBefore(fields, i + 1) {
      forall j | 0 <= j < |fields|
        ensures next[j].1 == if j < i + 1 then Rewritten(fields[j]) else fields[j].1
      {
        if j == i {
          assert cur[i].1 == fields[i].1;
        }
      }
    }
  }

  /** A visit to the `_hash` field sets or appends `hash` and nothing else. */
  lemma VisitHashKeepsShape(fields: seq<Field>, cur: seq<Field>, i: nat, v: Value)
    requires i < |fields| && Shape(fields, cur, i) && cur[i].0 == "_hash"
    ensures Shape(fields, SetField(cur, "hash", v), i + 1)
  {
    assert fields[i].0 == "_hash";
    assert !NoHashKeyBefore(fields, i + 1);
    SetHashKeepsKeys(fields, cur, v);
    SetHashKeepsValues(fields, cur, i, v);
  }

  lemma SetHashKeepsKeys(fields: seq<Field>, cur: seq<Field>, v: Value)
    requires KeysKept(fields, cur)
    ensures KeysKept(fields, SetField(cur, "hash", v))
  {
    SetFieldSpec(cur, "hash", v);
    var ks := Keys(cur);
    if "hash" !in ks {
      forall j | 0 <= j < |fields| ensures fields[j].0 != "hash" {
        assert ks[j] == fields[j].0;
      }
    }
  }

  lemma SetHashKeepsValues(fields: seq<Field>, cur: seq<Field>, i: nat, v: Value)
    requires i < |fields| && KeysKept(fields, cur) && ValuesAt(fields, cur, i, false)
    requires fields[i].0 == "_hash"
    ensures |fields| <= |SetField(cur, "hash", v)|
    ensures ValuesAt(fields, SetField(cur, "hash", v), i + 1, false)
  {
    SetFieldSpec(cur, "hash", v);
    var next := SetField(cur, "hash", v);
    forall j | 0 <= j < |fields| && fields[j].0 != "hash"
      ensures next[j].1 == if j < i + 1 then Rewritten(fields[j]) else fields[j].1
    {
      assert cur[j].0 == fields[j].0;
      assert next[j] == cur[j];
    }
  }

  lemma VisitKeepsShape(digest: Value -> string, fields: seq<Field>, cur: seq<Field>, i: nat, next: seq<Field>, k: nat)
    requires i < |fields| && i < |cur| && VisitField(digest, cur, i) == Ok(next) && k == i + 1
    ensures Shape(fields, cur, i) ==> Shape(fields, next, k)
  {
    if Shape(fields, cur, i) {
      var key := cur[i].0;
      if !Underscored(key) {
        VisitPlainKeepsShape(fields, cur, i);
      } else if key == "_hash" {
        var target := HashTarget(cur, cur[i].1);
        VisitHashKeepsShape(fields, cur, i, Str(digest(target.value)));
      } else {
        assert fields[i].0 == key;
        assert next == cur;
        assert cur[i].1 == fields[i].1;
      }
    }
  }

  /** What the first `i` visits leave behind. */
  lemma {:induction false} TransformUpToShape(digest: Value -> string, fields: seq<Field>, i: nat, r: Result<seq<Field>>)
    requires i <= |fields| && r == TransformUpTo(digest, fields, i)
    ensures r.Ok? ==> Shape(fields, r.value, i)
  {
    if i == 0 {
      ShapeInitial(fields);
    } else {
      var prev := TransformUpTo(digest, fields, i - 1);
      if prev.Ok? && r.Ok? {
        assert r == VisitField(digest, prev.value, i - 1);
        VisitKeepsShape(digest, fields, prev.value, i - 1, r.value, i);
      }
      TransformUpToShape(digest, fields, i - 1, prev);
    }
  }

  /** Before any visit the message is its own shape. */
  lemma ShapeInitial(fields: seq<Field>)
    ensures Shape(fields, fields, 0)
  {
  }

  /** Presence of a key depends only on which positions hold `null`. */
  lemma {:induction false} LookupPresence(a: seq<Field>, b: seq<Field>, key: string)
    requires |a| == |b|
    requires forall j :: 0 <= j < |a| ==> a[j].0 == b[j].0 && (a[j].1 == Null <==> b[j].1 == Null)
    ensures Present(Lookup(a, key)) <==> Present(Lookup(b, key))
  {
    if a != [] {
      LookupPresence(a[1..], b[1..], key);
    }
  }

  /** The field at position `j` is a `_hash` field naming no present field. */
  predicate BadHashAt(fields: seq<Field>, j: int)
    requires 0 <= j < |fields|
  {
    fields[j].0 == "_hash" && !Present(HashTarget(fields, fields[j].1))
  }

  /** On a message without repeated keys, exampleTransform fails exactly
      when a `_hash` field does not name a present field of the message,
      and then it fails with "_hash value not a valid msg key". */
  lemma TransformFailsIff(digest: Value -> string, fields: seq<Field>)
    requires DistinctKeys(fields)
    ensures Transform(digest, Obj(fields)).Err? <==> exists j :: 0 <= j < |fields| && BadHashAt(fields, j)
    ensures Transform(digest, Obj(fields)).Err? ==> Transform(digest, Obj(fields)).error == HashKeyMissing
  {
    TransformFailsUpTo(digest, fields, |fields|);
  }

  lemma {:induction false} TransformFailsUpTo(digest: Value -> string, fields: seq<Field>, i: nat)
    requires DistinctKeys(fields) && i <= |fields|
    ensures TransformUpTo(digest, fields, i).Err? <==> exists j :: 0 <= j < i && BadHashAt(fields, j)
    ensures TransformUpTo(digest, fields, i).Err? ==> TransformUpTo(digest, fields, i).error == HashKeyMissing
  {
    if i > 0 {
      TransformFailsUpTo(digest, fields, i - 1);
      var prev := TransformUpTo(digest, fields, i - 1);
      if prev.Ok? {
        TransformUpToShape(digest, fields, i - 1, prev);
        VisitFailsIff(digest, fields, prev.value, i - 1);
      }
    }
  }

  /** The visit after `i` successful ones fails exactly at a bad `_hash`. */
  lemma VisitFailsIff(digest: Value -> string, fields: seq<Field>, cur: seq<Field>, i: nat)
    requires DistinctKeys(fields) && i < |fields|
    requires Shape(fields, cur, i) && forall j :: 0 <= j < i ==> !BadHashAt(fields, j)
    ensures VisitField(digest, cur, i).Err? <==> BadHashAt(fields, i)
    ensures VisitField(digest, cur, i).Err? ==> VisitField(digest, cur, i).error == HashKeyMissing
  {
    assert cur[i].0 == fields[i].0;
    if fields[i].0 == "_hash" {
      assert NoHashKeyBefore(fields, i);
      SameNullsAfterVisits(fields, cur, i);
      if fields[i].1.Str? {
        LookupPresence(cur, fields, fields[i].1.s);
      }
    }
  }

  lemma SameNullsAfterVisits(fields: seq<Field>, cur: seq<Field>, i: nat)
    requires i < |fields| && Shape(fields, cur, i) && NoHashKeyBefore(fields, i)
    ensures |cur| == |fields| && cur[i].1 == fields[i].1
    ensures forall j :: 0 <= j < |cur| ==> cur[j].0 == fields[j].0 && (cur[j].1 == Null <==> fields[j].1 == Null)
  {
    forall j | 0 <= j < |cur|
      ensures cur[j].0 == fields[j].0 && (cur[j].1 == Null <==> fields[j].1 == Null)
    {
      assert cur[j].1 == if j < i then Rewritten(fields[j]) else fields[j].1;
    }
  }

  /** Each field of the message keeps its key and position; each field other
      than `hash` ends up rewritten by the rule; a new field can only be
      `hash`, appended at the end. */
  lemma TransformFieldwise(digest: Value -> string, fields: seq<Field>)
    requires Transform(digest, Obj(fields)).Ok?
    ensures var r := Transform(digest, Obj(fields)).value;
      && r.Obj? && |fields| <= |r.fields| <= |fields| + 1
      && (forall j :: 0 <= j < |fields| ==> r.fields[j].0 == fields[j].0)
      && (forall j :: 0 <= j < |fields| && fields[j].0 != "hash" ==> r.fields[j].1 == Rewritten(fields[j]))
      && (|r.fields| == |fields| + 1 ==> r.fields[|fields|].0 == "hash" && "hash" !in Keys(fields))
  {
    TransformUpToShape(digest, fields, |fields|, TransformUpTo(digest, fields, |fields|));
  }
}
