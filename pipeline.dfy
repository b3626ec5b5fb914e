/** The routing pipeline of MessageService and SequentialMessageService as
    functions of an abstract state: one input queue, one staging queue
    (`transfQueue`), N output queues and, for the sequential service, the two
    dictionaries `seqOutIndex` and `seqOutRoute`. Every operation returns the
    new state together with the exception it raised, if any; state changes
    made before an exception are kept, as in the source. */
module Pipeline {
  import opened Values
  import opened Fifo

  /** Which `dispatchOne` a service runs: the base class's as written, the
      base class's with its bounds test inverted back, or the sequential
      subclass's override. */
  datatype Kind = Plain | PlainCorrected | Sequential

  type Transform = Value -> Result<Value>
  type Router = Value -> Result<int>

  /** The strategies and the codec a service is built with. */
  datatype Config = Config(kind: Kind, transform: Transform, route: Router, json: Codec)

  datatype State = State(
    input: seq<Value>,
    staging: seq<Value>,
    outputs: seq<seq<Value>>,
    seqIndex: map<Value, int>,
    seqRoute: map<Value, int>)

  /** The state of a freshly constructed service: `numOut` empty output
      queues (none at all when `numOut` is not positive). */
  function Initial(numOut: int): State {
    State([], [], seq(if numOut < 0 then 0 else numOut, _ => []), map[], map[])
  }

  /** 0 <= n <= outQueues.length - 1, the negation of the source's bounds test. */
  predicate InRange(s: State, n: int) {
    0 <= n <= |s.outputs| - 1
  }

  function Deliver(s: State, c: int, item: Value): State
    requires InRange(s, c)
  {
    s.(outputs := s.outputs[c := s.outputs[c] + [item]])
  }

  /** `_sequence`, the sequence id of an item. */
  function SeqId(item: Value): Option<Value> {
    Get(item, "_sequence")
  }

  /** An item that `dispatchOne` treats as part of a sequence. */
  predicate Sequenced(item: Value) {
    Present(SeqId(item))
  }

  /** `_part` of an item, where it is an integer. */
  function Part(item: Value): int
    requires IsInteger(Get(item, "_part"))
  {
    Get(item, "_part").value.x.Floor
  }

  /** Whether `dispatchOne` releases a sequenced item with integer part: part
      0 of an unseen sequence, or the part just after the last dispatched. */
  predicate Releasable(s: State, item: Value)
    requires Sequenced(item) && IsInteger(Get(item, "_part"))
  {
    var id := SeqId(item).value;
    (id !in s.seqIndex && Part(item) == 0) || (id in s.seqIndex && Part(item) == s.seqIndex[id] + 1)
  }

  /** The bounds test of routeItem followed by the enqueue. */
  function Place(s: State, item: Value, n: int): (State, Status) {
    if n < 0 || n > |s.outputs| - 1 then (s, Fail(BadDispatchRoute))
    else (Deliver(s, n, item), Pass)
  }

  /** SequentialMessageService.routeItem: route an item afresh when its
      sequence id is falsy, through the cached route of its sequence
      otherwise, calling the router and caching its answer the first time. */
  function RouteItem(s: State, item: Value, route: Router): (r: (State, Status))
    ensures r.0.input == s.input && r.0.staging == s.staging && r.0.seqIndex == s.seqIndex
    ensures |r.0.outputs| == |s.outputs|
  {
    var seqId := SeqId(item);
    if !Truthy(seqId) then
      match route(item)
      case Err(e) => (s, Fail(e))
      case Ok(n) => Place(s, item, n)
    else if seqId.value !in s.seqRoute then
      match route(item)
      case Err(e) => (s, Fail(e))
      case Ok(n) => Place(s.(seqRoute := s.seqRoute[seqId.value := n]), item, n)
    else
      Place(s, item, s.seqRoute[seqId.value])
  }

  /** SequentialMessageService.dispatchOne. */
  function SeqDispatchOne(s: State, route: Router): (r: (State, Status))
    ensures r.0.input == s.input && |r.0.outputs| == |s.outputs|
    ensures |r.0.staging| <= |s.staging|
  {
    var (head, rest) := Shift(s.staging);
    var s1 := s.(staging := rest);
    if head.Err? then (s1, Fail(head.error))
    else
      var out := head.value;
      if !Sequenced(out) then RouteItem(s1, out, route)
      else if !IsInteger(Get(out, "_part")) then (s1, Fail(PartNotInt))
      else if Releasable(s, out) then
        RouteItem(s1.(seqIndex := s.seqIndex[SeqId(out).value := Part(out)]), out, route)
      else
        (s1.(staging := rest + [out]), Pass)
  }

  /** MessageService.dispatchOne as written: the item is enqueued only when
      its route is OUT of range, where the queue to enqueue it in does not
      exist, so that branch fails and an in-range item is dropped. */
  function BaseDispatchOne(s: State, route: Router): (r: (State, Status))
    ensures r.0.input == s.input && |r.0.outputs| == |s.outputs|
    ensures |r.0.staging| <= |s.staging|
  {
    var (head, rest) := Shift(s.staging);
    var s1 := s.(staging := rest);
    if head.Err? then (s1, Fail(head.error))
    else
      match route(head.value)
      case Err(e) => (s1, Fail(e))
      case Ok(n) => if n < 0 || n > |s.outputs| - 1 then (s1, Fail(NoSuchQueue)) else (s1, Pass)
  }

  /** MessageService.dispatchOne with the bounds test inverted: an in-range
      item is enqueued and an out-of-range one is dropped. */
  function CorrectedBaseDispatchOne(s: State, route: Router): (r: (State, Status))
    ensures r.0.input == s.input && |r.0.outputs| == |s.outputs|
    ensures |r.0.staging| <= |s.staging|
  {
    var (head, rest) := Shift(s.staging);
    var s1 := s.(staging := rest);
    if head.Err? then (s1, Fail(head.error))
    else
      match route(head.value)
      case Err(e) => (s1, Fail(e))
      case Ok(n) => if InRange(s1, n) then (Deliver(s1, n, head.value), Pass) else (s1, Pass)
  }

  /** `this.dispatchOne()`, resolved by the kind of service. */
  function DispatchOne(kind: Kind, s: State, route: Router): (r: (State, Status))
    ensures r.0.input == s.input && |r.0.outputs| == |s.outputs|
    ensures |r.0.staging| <= |s.staging|
  {
    match kind
    case Plain => BaseDispatchOne(s, route)
    case PlainCorrected => CorrectedBaseDispatchOne(s, route)
    case Sequential => SeqDispatchOne(s, route)
  }

  /** The loop of dispatchAll from iteration `i` on. The bound is the staging
      queue's length read afresh before every iteration, and an exception
      ends the sweep. */
  function Sweep(kind: Kind, s: State, route: Router, i: nat): (r: (State, Status))
    ensures r.0.input == s.input && |r.0.outputs| == |s.outputs|
    ensures |r.0.staging| <= |s.staging|
    decreases |s.staging| - i
  {
    if i >= |s.staging| then (s, Pass)
    else
      var (s1, st) := DispatchOne(kind, s, route);
      if st.Fail? then (s1, st) else Sweep(kind, s1, route, i + 1)
  }

  /** MessageService.dispatchAll. */
  function DispatchAll(kind: Kind, s: State, route: Router): (State, Status) {
    Sweep(kind, s, route, 0)
  }

  /** How many times the loop of dispatchAll calls dispatchOne from
      iteration `i` on. */
  function Attempts(kind: Kind, s: State, route: Router, i: nat): (n: nat)
    ensures n <= if i <= |s.staging| then |s.staging| - i else 0
    decreases |s.staging| - i
  {
    if i >= |s.staging| then 0
    else
      var (s1, st) := DispatchOne(kind, s, route);
      if st.Fail? then 1 else 1 + Attempts(kind, s1, route, i + 1)
  }

  /** MessageService.transformAndDipatchAll. */
  function TransformAndDispatchAll(cfg: Config, s: State): (State, Status) {
    var (head, rest) := Shift(s.input);
    if head.Err? then (s.(input := rest), Fail(head.error))
    else
      match cfg.transform(head.value)
      case Err(e) => (s.(input := rest), Fail(e))
      case Ok(t) => DispatchAll(cfg.kind, s.(input := rest, staging := s.staging + [t]), cfg.route)
  }

  /** MessageService.enqueue. */
  function Enqueue(cfg: Config, s: State, text: string): (State, Status) {
    match cfg.json.parse(text)
    case None => (s, Fail(ParseError))
    case Some(v) => TransformAndDispatchAll(cfg, s.(input := s.input + [v]))
  }

  /** The bounds test of next(N): `N < 0 || N > outQueues.length - 1`. Only
      a number can fail it here; see README for other channel values. */
  predicate OutOfBounds(s: State, ch: Value) {
    ch.Num? && (ch.x < 0.0 || ch.x > (|s.outputs| - 1) as real)
  }

  /** The output queue `outQueues[N]` names: an integral number in range. */
  predicate Names(s: State, ch: Value) {
    ch.Num? && IsIntegral(ch.x) && InRange(s, ch.x.Floor)
  }

  /** What next(N) takes out of the service: a sweep, then the bounds test,
      then the oldest item of channel `ch`. A channel that passes the bounds
      test without naming a queue makes `outQueues[N].next()` a TypeError. */
  function Take(cfg: Config, s: State, ch: Value): (State, Result<Value>) {
    var (s1, st) := DispatchAll(cfg.kind, s, cfg.route);
    if st.Fail? then (s1, Err(st.error))
    else if OutOfBounds(s1, ch) then (s1, Err(BadNextRoute))
    else if !Names(s1, ch) then (s1, Err(NoSuchQueue))
    else
      var n := ch.x.Floor;
      var (head, rest) := Shift(s1.outputs[n]);
      (s1.(outputs := s1.outputs[n := rest]), head)
  }

  /** MessageService.next: the item Take gives, returned as JSON text. */
  function Next(cfg: Config, s: State, ch: Value): (State, Result<string>) {
    var (s2, r) := Take(cfg, s, ch);
    if r.Err? then (s2, Err(r.error)) else (s2, Ok(cfg.json.stringify(r.value)))
  }
}
