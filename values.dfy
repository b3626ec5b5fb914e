/** Decoded JSON values, the error kinds the server raises, and the few
    JavaScript value tests (`!= undefined`, truthiness, Number.isInteger)
    that the pipeline's branches depend on. */
module Values {

  /** A decoded JSON value. JavaScript has one number type, so there is one
      numeric constructor; an object keeps its fields in enumeration order. */
  datatype Value =
    | Null
    | Bool(b: bool)
    | Num(x: real)
    | Str(s: string)
    | Arr(items: seq<Value>)
    | Obj(fields: seq<Field>)

  type Field = (string, Value)

  datatype Option<T> = None | Some(value: T)

  /** The exceptions the core throws, one constructor per distinct message,
      plus `Raised` for whatever a caller-supplied strategy throws. */
  datatype Error =
    | RanOut             // Queue.next on an empty queue (or a null item)
    | BadDispatchRoute   // routeItem: route outside the output queues
    | BadNextRoute       // next(N): N outside the output queues
    | PartNotInt         // dispatchOne: `_part` is not an integer
    | NoSuchQueue        // TypeError: a missing output queue was indexed
    | ParseError         // JSON.parse rejected the text
    | HashKeyMissing     // exampleTransform: `_hash` names no field
    | NoAction           // serve: request without `action`
    | UnknownAction      // serve: `action` is neither enqueue nor next
    | MissingData        // enqueueResponder: request without `data`
    | MissingChannel     // nextResponder: request without `channel`
    | Raised(message: string)

  datatype Result<T> = Ok(value: T) | Err(error: Error)

  datatype Status = Pass | Fail(error: Error)

  /** JSON.parse and JSON.stringify, left abstract. */
  datatype Codec = Codec(parse: string -> Option<Value>, stringify: Value -> string)

  /** The keys of a field list, in order. */
  function Keys(fields: seq<Field>): (ks: seq<string>)
    ensures |ks| == |fields| && forall i :: 0 <= i < |fields| ==> ks[i] == fields[i].0
  {
    if fields == [] then [] else [fields[0].0] + Keys(fields[1..])
  }

  /** `obj[key]` on a field list: the value of the first field named `key`. */
  function Lookup(fields: seq<Field>, key: string): Option<Value> {
    if fields == [] then None
    else if fields[0].0 == key then Some(fields[0].1)
    else Lookup(fields[1..], key)
  }

  /** A key is found exactly when it is one of the keys, and what is found
      is the value of a field with that key. */
  lemma {:induction false} LookupSpec(fields: seq<Field>, key: string)
    ensures Lookup(fields, key).Some? <==> key in Keys(fields)
    ensures Lookup(fields, key).Some? ==> exists i :: 0 <= i < |fields| && fields[i] == (key, Lookup(fields, key).value)
  {
    if fields != [] {
      LookupSpec(fields[1..], key);
      assert Keys(fields) == [fields[0].0] + Keys(fields[1..]);
      if fields[0].0 != key && Lookup(fields, key).Some? {
        var i :| 0 <= i < |fields[1..]| && fields[1..][i] == (key, Lookup(fields, key).value);
        assert fields[i + 1] == (key, Lookup(fields, key).value);
      }
    }
  }

  /** Property access `v[key]`; `None` stands for `undefined`. Only objects
      have named properties in this model. */
  function Get(v: Value, key: string): Option<Value> {
    if v.Obj? then Lookup(v.fields, key) else None
  }

  /** JavaScript's `x != undefined`, which is false for `null` as well. */
  predicate Present(o: Option<Value>) {
    o.Some? && o.value != Null
  }

  /** JavaScript truthiness of a property that may be `undefined`. */
  predicate Truthy(o: Option<Value>) {
    match o
    case None => false
    case Some(v) =>
      match v
      case Null => false
      case Bool(b) => b
      case Num(x) => x != 0.0
      case Str(s) => s != ""
      case Arr(_) => true
      case Obj(_) => true
  }

  predicate IsIntegral(x: real) {
    x.Floor as real == x
  }

  /** Number.isInteger applied to a property that may be `undefined`. */
  predicate IsInteger(o: Option<Value>) {
    o.Some? && o.value.Num? && IsIntegral(o.value.x)
  }

  /** No key occurs twice, as in any object JSON.parse returns. */
  predicate DistinctKeys(fields: seq<Field>) {
    forall i, j :: 0 <= i < j < |fields| ==> fields[i].0 != fields[j].0
  }

  /** The JavaScript tests on a property: a truthy property is defined and
      not `null`, and a defined, non-`null` property is falsy exactly when
      it is `false`, `0` or the empty string. */
  lemma TruthyIffNotFalsy(o: Option<Value>)
    ensures Truthy(o) ==> Present(o)
    ensures Present(o) ==> (!Truthy(o) <==> o.value in {Bool(false), Num(0.0), Str("")})
  {
  }

  /** Number.isInteger: an integer written as a number passes, and a number
      half-way between two integers does not; a number that passes is its
      own floor. */
  lemma IsIntegerOnNumbers(n: int, x: real)
    ensures IsInteger(Some(Num(n as real)))
    ensures !IsInteger(Some(Num(n as real + 0.5)))
    ensures IsInteger(Some(Num(x))) ==> x.Floor as real == x
    ensures !IsInteger(None) && !IsInteger(Some(Null))
  {
    assert (n as real + 0.5).Floor == n;
  }
}
