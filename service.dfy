/** MessageService and SequentialMessageService as one class whose queues are
    Queue objects and whose sequence dictionaries are map fields updated in
    place. Each method is proved to move the abstract state exactly as the
    matching function of Pipeline says. */
module Service {
  import opened Values
  import opened Fifo
  import P = Pipeline

  /** The contents of a list of queues. */
  function Stores(qs: seq<Queue>): (r: seq<seq<Value>>)
    reads qs
    ensures |r| == |qs| && forall i :: 0 <= i < |qs| ==> r[i] == qs[i].store
  {
    if qs == [] then [] else [qs[0].store] + Stores(qs[1..])
  }

  class MessageService {
    const kind: P.Kind
    const inQueue: Queue
    const transfQueue: Queue
    const outQueues: seq<Queue>
    const transformFn: P.Transform
    const routingFn: P.Router
    const json: Codec
    var seqOutIndex: map<Value, int>
    var seqOutRoute: map<Value, int>

    /** The queues are distinct objects. */
    ghost predicate Valid() {
      && inQueue != transfQueue
      && inQueue !in outQueues
      && transfQueue !in outQueues
      && forall i, j :: 0 <= i < j < |outQueues| ==> outQueues[i] != outQueues[j]
    }

    function Cfg(): P.Config {
      P.Config(kind, transformFn, routingFn, json)
    }

    /** The abstract state of the service. */
    function Abs(): P.State
      reads this, inQueue, transfQueue, outQueues
    {
      P.State(inQueue.store, transfQueue.store, Stores(outQueues), seqOutIndex, seqOutRoute)
    }

    constructor (kind: P.Kind, numOut: int, transformFn: P.Transform, routingFn: P.Router, json: Codec)
      ensures Valid()
      ensures Cfg() == P.Config(kind, transformFn, routingFn, json)
      ensures Abs() == P.Initial(numOut)
    {
      var qIn := new Queue();
      var qStage := new Queue();
      var qs: seq<Queue> := [];
      var i := 0;
      while i < numOut
        invariant 0 <= i && (i <= numOut || i == 0) && |qs| == i
        invariant qIn != qStage && qIn !in qs && qStage !in qs
        invariant forall a, b :: 0 <= a < b < |qs| ==> qs[a] != qs[b]
        invariant forall a :: 0 <= a < |qs| ==> fresh(qs[a]) && qs[a].store == []
        invariant qIn.store == [] && qStage.store == []
      {
        var q := new Queue();
        qs := qs + [q];
        i := i + 1;
      }
      this.kind := kind;
      this.inQueue := qIn;
      this.transfQueue := qStage;
      this.outQueues := qs;
      this.transformFn := transformFn;
      this.routingFn := routingFn;
      this.json := json;
      seqOutIndex := map[];
      seqOutRoute := map[];
      new;
      assert Stores(outQueues) == P.Initial(numOut).outputs;
    }

    /** SequentialMessageService.routeItem. */
    method RouteItem(item: Value) returns (r: Status)
      requires Valid()
      modifies this, outQueues
      ensures (Abs(), r) == P.RouteItem(old(Abs()), item, routingFn)
    {
      var seqId := P.SeqId(item);
      var outN: int;
      if !Truthy(seqId) {
        var n := routingFn(item);
        if n.Err? {
          return Fail(n.error);
        }
        outN := n.value;
      } else if seqId.value !in seqOutRoute {
        var n := routingFn(item);
        if n.Err? {
          return Fail(n.error);
        }
        seqOutRoute := seqOutRoute[seqId.value := n.value];
        outN := seqOutRoute[seqId.value];
      } else {
        outN := seqOutRoute[seqId.value];
      }
      if outN < 0 || outN > |outQueues| - 1 {
        return Fail(BadDispatchRoute);
      }
      ghost var before := Stores(outQueues);
      outQueues[outN].Enqueue(item);
      assert Stores(outQueues) == before[outN := before[outN] + [item]];
      r := Pass;
    }

    /** SequentialMessageService.dispatchOne. */
    method SeqDispatchOne() returns (r: Status)
      requires Valid()
      modifies this, transfQueue, outQueues
      ensures (Abs(), r) == P.SeqDispatchOne(old(Abs()), routingFn)
    {
      var head := transfQueue.Next();
      if head.Err? {
        return Fail(head.error);
      }
      var out := head.value;
      var seqId := P.SeqId(out);
      if Present(seqId) {
        var seqN := Get(out, "_part");
        if !IsInteger(seqN) {
          return Fail(PartNotInt);
        }
        var part := seqN.value.x.Floor;
        if (seqId.value !in seqOutIndex && part == 0)
          || (seqId.value in seqOutIndex && part == seqOutIndex[seqId.value] + 1)
        {
          seqOutIndex := seqOutIndex[seqId.value := part];
          r := RouteItem(out);
        } else {
          transfQueue.Enqueue(out);
          r := Pass;
        }
      } else {
        r := RouteItem(out);
      }
    }

    /** MessageService.dispatchOne (for Plain, as written; for
        PlainCorrected, with the bounds test inverted). */
    method BaseDispatchOne() returns (r: Status)
      requires Valid() && kind != P.Sequential
      modifies transfQueue, outQueues
      ensures (Abs(), r) == P.DispatchOne(kind, old(Abs()), routingFn)
    {
      var out := transfQueue.Next();
      if out.Err? {
        return Fail(out.error);
      }
      var outN := routingFn(out.value);
      if outN.Err? {
        return Fail(outN.error);
      }
      var n := outN.value;
      if kind == P.Plain {
        if n < 0 || n > |outQueues| - 1 {
          // outQueues[outN] is undefined here: the enqueue raises a TypeError
          return Fail(NoSuchQueue);
        }
      } else if 0 <= n <= |outQueues| - 1 {
        ghost var before := Stores(outQueues);
        outQueues[n].Enqueue(out.value);
        assert Stores(outQueues) == before[n := before[n] + [out.value]];
      }
      r := Pass;
    }

    /** `this.dispatchOne()`. */
    method DispatchOne() returns (r: Status)
      requires Valid()
      modifies this, transfQueue, outQueues
      ensures (Abs(), r) == P.DispatchOne(kind, old(Abs()), routingFn)
    {
      if kind == P.Sequential {
        r := SeqDispatchOne();
      } else {
        r := BaseDispatchOne();
      }
    }

    /** MessageService.dispatchAll: the loop bound is the staging length read
        again before every iteration. */
    method DispatchAll() returns (r: Status)
      requires Valid()
      modifies this, transfQueue, outQueues
      ensures (Abs(), r) == P.DispatchAll(kind, old(Abs()), routingFn)
    {
      ghost var goal := P.DispatchAll(kind, Abs(), routingFn);
      var i := 0;
      var len := transfQueue.GetLength();
      while i < len
        invariant len == |Abs().staging|
        invariant P.Sweep(kind, Abs(), routingFn, i) == goal
        decreases len as int - i
      {
        ghost var s := Abs();
        r := DispatchOne();
        assert (Abs(), r) == P.DispatchOne(kind, s, routingFn);
        if r.Fail? {
          return;
        }
        i := i + 1;
        len := transfQueue.GetLength();
      }
      r := Pass;
    }

    /** MessageService.transformAndDipatchAll. */
    method TransformAndDispatchAll() returns (r: Status)
      requires Valid()
      modifies this, inQueue, transfQueue, outQueues
      ensures (Abs(), r) == P.TransformAndDispatchAll(Cfg(), old(Abs()))
    {
      var item := inQueue.Next();
      if item.Err? {
        return Fail(item.error);
      }
      var out := transformFn(item.value);
      if out.Err? {
        return Fail(out.error);
      }
      transfQueue.Enqueue(out.value);
      r := DispatchAll();
    }

    /** MessageService.enqueue. */
    method Enqueue(msg: string) returns (r: Status)
      requires Valid()
      modifies this, inQueue, transfQueue, outQueues
      ensures (Abs(), r) == P.Enqueue(Cfg(), old(Abs()), msg)
    {
      var parsed := json.parse(msg);
      if parsed.None? {
        return Fail(ParseError);
      }
      inQueue.Enqueue(parsed.value);
      r := TransformAndDispatchAll();
    }

    /** MessageService.next, for whatever value the channel is. */
    method Next(ch: Value) returns (r: Result<string>)
      requires Valid()
      modifies this, transfQueue, outQueues
      ensures (Abs(), r) == P.Next(Cfg(), old(Abs()), ch)
    {
      var st := DispatchAll();
      if st.Fail? {
        return Err(st.error);
      }
      if P.OutOfBounds(Abs(), ch) {
        return Err(BadNextRoute);
      }
      if !P.Names(Abs(), ch) {
        // outQueues[N] is undefined: calling its next() raises a TypeError
        return Err(NoSuchQueue);
      }
      var n := ch.x.Floor;
      ghost var before := Stores(outQueues);
      var item := outQueues[n].Next();
      assert Stores(outQueues) == before[n := Shift(before[n]).1];
      if item.Err? {
        return Err(item.error);
      }
      r := Ok(json.stringify(item.value));
    }

    /** MessageService.getLengthOutQueue: the length of output queue `n`,
        an error for a queue that does not exist; nothing changes. */
    method GetLengthOutQueue(n: int) returns (r: Result<nat>)
      requires Valid()
      ensures r.Ok? <==> 0 <= n < |Abs().outputs|
      ensures r.Ok? ==> r.value == |Abs().outputs[n]|
    {
      if n < 0 || n >= |outQueues| {
        return Err(NoSuchQueue);
      }
      var len := outQueues[n].GetLength();
      r := Ok(len);
    }
  }
}
