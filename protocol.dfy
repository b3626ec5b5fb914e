/** The request protocol of MessageServiceSocketHandler: a chunk of the
    stream is split into lines, each nonempty line is a JSON request object
    whose `action` is "enqueue" or "next", and each request either writes one
    response to the socket or raises an exception that `serve` logs and
    swallows before going on with the next line. */
module Protocol {
  import opened Values
  import P = Pipeline

  /** `JSON.stringify('{"_enqueued":true}')`: the string is encoded once
      more, so the acknowledgement is a JSON string literal. */
  const ACK: string := "\"{\\\"_enqueued\\\":true}\""

  /** `requests.split("\n")`: the pieces between newlines, empty ones
      included; there is always at least one piece. */
  function SplitLines(s: string): (r: seq<string>)
    ensures |r| >= 1
    ensures forall i :: 0 <= i < |r| ==> '\n' !in r[i]
  {
    if s == [] then [""]
    else
      var rest := SplitLines(s[1..]);
      if s[0] == '\n' then [""] + rest
      else [[s[0]] + rest[0]] + rest[1..]
  }

  /** `lines.join("\n")`, the inverse of SplitLines. */
  function JoinLines(lines: seq<string>): string
    requires |lines| >= 1
  {
    if |lines| == 1 then lines[0] else lines[0] + "\n" + JoinLines(lines[1..])
  }

  /** Splitting a joined list of newline-free lines gives the lines back. */
  lemma {:induction false} SplitJoin(lines: seq<string>)
    requires |lines| >= 1
    requires forall i :: 0 <= i < |lines| ==> '\n' !in lines[i]
    ensures SplitLines(JoinLines(lines)) == lines
  {
    if |lines| == 1 {
      SplitNoNewline(lines[0]);
    } else {
      SplitJoin(lines[1..]);
      SplitAfter(lines[0], JoinLines(lines[1..]));
    }
  }

  /** A piece without a newline is a single line. */
  lemma {:induction false} SplitNoNewline(s: string)
    requires '\n' !in s
    ensures SplitLines(s) == [s]
  {
    if s != [] {
      assert s[0] != '\n' && '\n' !in s[1..] by {
        assert s[0] == s[0] && forall k :: 0 <= k < |s[1..]| ==> s[1..][k] == s[k + 1];
      }
      SplitNoNewline(s[1..]);
      assert [s[0]] + s[1..] == s;
    }
  }

  /** A newline-free prefix ended by a newline becomes the first line. */
  lemma {:induction false} SplitAfter(a: string, b: string)
    requires '\n' !in a
    ensures SplitLines(a + "\n" + b) == [a] + SplitLines(b)
  {
    if a == [] {
      assert a + "\n" + b == "\n" + b;
      assert ("\n" + b)[1..] == b;
    } else {
      assert (a + "\n" + b)[1..] == a[1..] + "\n" + b;
      SplitAfter(a[1..], b);
      assert [a[0]] + a[1..] == a;
    }
  }

  /** Joining the pieces of a split gives the original text back. */
  lemma {:induction false} JoinSplit(s: string)
    ensures JoinLines(SplitLines(s)) == s
  {
    if s != [] {
      JoinSplit(s[1..]);
      var rest := SplitLines(s[1..]);
      if s[0] != '\n' && |rest| > 1 {
        assert JoinLines(rest) == rest[0] + "\n" + JoinLines(rest[1..]);
        assert ([s[0]] + rest[0]) + "\n" + JoinLines(rest[1..]) == [s[0]] + JoinLines(rest);
      }
    }
  }

  /** Splitting is compatible with concatenating two chunks at a newline. */
  lemma {:induction false} SplitConcat(a: string, b: string)
    ensures SplitLines(a + "\n" + b) == SplitLines(a) + SplitLines(b)
    decreases |a|
  {
    if a == [] {
      assert a + "\n" + b == "\n" + b;
      assert ("\n" + b)[1..] == b;
    } else {
      assert (a + "\n" + b)[1..] == a[1..] + "\n" + b;
      SplitConcat(a[1..], b);
    }
  }

  /** What one request does: the new state, and either the response written
      to the socket or the exception that is logged instead. */
  type Outcome = (P.State, Result<string>)

  /** enqueueResponder: the request's `data`, encoded to JSON, is enqueued;
      the acknowledgement is written only when the enqueue raised nothing. */
  function EnqueueResponder(cfg: P.Config, s: P.State, req: Value): Outcome {
    var data := Get(req, "data");
    if !Present(data) then (s, Err(MissingData))
    else
      var (s1, st) := P.Enqueue(cfg, s, cfg.json.stringify(data.value));
      if st.Fail? then (s1, Err(st.error)) else (s1, Ok(ACK))
  }

  /** nextResponder: the answer of `service.next(req.channel)` is written. */
  function NextResponder(cfg: P.Config, s: P.State, req: Value): Outcome {
    var channel := Get(req, "channel");
    if !Present(channel) then (s, Err(MissingChannel))
    else P.Next(cfg, s, channel.value)
  }

  /** The body of the `try` block of serve, for one nonempty line. */
  function HandleLine(cfg: P.Config, s: P.State, line: string): Outcome {
    match cfg.json.parse(line)
    case None => (s, Err(ParseError))
    case Some(req) =>
      var action := Get(req, "action");
      if !Present(action) then (s, Err(NoAction))
      else if action.value == Str("enqueue") then EnqueueResponder(cfg, s, req)
      else if action.value == Str("next") then NextResponder(cfg, s, req)
      else (s, Err(UnknownAction))
  }

  /** What one request writes to the socket. */
  function Written(r: Result<string>): (w: seq<string>)
    ensures |w| <= 1
  {
    if r.Ok? then [r.value] else []
  }

  /** One iteration of the loop of serve; empty lines are skipped. */
  function Step(cfg: P.Config, s: P.State, line: string): (r: (P.State, seq<string>))
    ensures |r.1| <= if line == "" then 0 else 1
  {
    if line == "" then (s, [])
    else
      var (s1, r) := HandleLine(cfg, s, line);
      (s1, Written(r))
  }

  /** How one line moves the state and what it writes. */
  type Handler = (P.State, string) -> (P.State, seq<string>)

  function StepOf(cfg: P.Config): Handler {
    (s: P.State, line: string) => Step(cfg, s, line)
  }

  /** The state and everything written after the first `i` lines. */
  function Fold(step: Handler, s: P.State, lines: seq<string>, i: nat): (P.State, seq<string>)
    requires i <= |lines|
  {
    if i == 0 then (s, [])
    else
      var (s1, w1) := Fold(step, s, lines, i - 1);
      var (s2, w2) := step(s1, lines[i - 1]);
      (s2, w1 + w2)
  }

  /** The loop of serve after its first `i` lines. */
  function ServeUpTo(cfg: P.Config, s: P.State, lines: seq<string>, i: nat): (P.State, seq<string>)
    requires i <= |lines|
  {
    Fold(StepOf(cfg), s, lines, i)
  }

  /** The lines of a list, processed in order. */
  function ServeLines(cfg: P.Config, s: P.State, lines: seq<string>): (P.State, seq<string>) {
    ServeUpTo(cfg, s, lines, |lines|)
  }

  /** serve: one data event's worth of text. */
  function Serve(cfg: P.Config, s: P.State, requests: string): (P.State, seq<string>) {
    ServeLines(cfg, s, SplitLines(requests))
  }

  /** The number of nonempty lines among the first `i`. */
  function Requests(lines: seq<string>, i: nat): nat
    requires i <= |lines|
  {
    if i == 0 then 0 else Requests(lines, i - 1) + (if lines[i - 1] == "" then 0 else 1)
  }

  /** Every request writes at most one response, so no more responses are
      written than there are nonempty lines. */
  lemma {:induction false} AtMostOneResponsePerRequest(cfg: P.Config, s: P.State, lines: seq<string>, i: nat)
    requires i <= |lines|
    ensures |ServeUpTo(cfg, s, lines, i).1| <= Requests(lines, i)
  {
    if i > 0 {
      AtMostOneResponsePerRequest(cfg, s, lines, i - 1);
      var (s1, w1) := ServeUpTo(cfg, s, lines, i - 1);
      assert ServeUpTo(cfg, s, lines, i).1 == w1 + Step(cfg, s1, lines[i - 1]).1;
    }
  }

  /** Processing a list of lines is processing its two halves in turn. */
  lemma {:induction false} FoldAppend(step: Handler, s: P.State, a: seq<string>, b: seq<string>)
    ensures var (s1, w1) := Fold(step, s, a, |a|);
      var (s2, w2) := Fold(step, s1, b, |b|);
      Fold(step, s, a + b, |a + b|) == (s2, w1 + w2)
    decreases |b|
  {
    var (s1, w1) := Fold(step, s, a, |a|);
    if b == [] {
      assert a + b == a;
      assert w1 + [] == w1;
    } else {
      var b', x := b[..|b| - 1], b[|b| - 1];
      assert b == b' + [x];
      assert a + b == (a + b') + [x];
      FoldAppend(step, s, a, b');
      FoldLast(step, s, a + b', x);
      FoldLast(step, s1, b', x);
      var (t, v) := Fold(step, s1, b', |b'|);
      var (t', y) := step(t, x);
      assert Fold(step, s, a + b', |a + b'|) == (t, w1 + v);
      assert Fold(step, s, a + b, |a + b|) == (t', (w1 + v) + y);
      assert Fold(step, s1, b, |b|) == (t', v + y);
      assert (w1 + v) + y == w1 + (v + y);
    }
  }

  /** Fold over a prefix does not look at the lines after it. */
  lemma {:induction false} FoldPrefix(step: Handler, s: P.State, lines: seq<string>, more: seq<string>, i: nat)
    requires i <= |lines|
    ensures Fold(step, s, lines + more, i) == Fold(step, s, lines, i)
  {
    if i > 0 {
      FoldPrefix(step, s, lines, more, i - 1);
      assert (lines + more)[i - 1] == lines[i - 1];
    }
  }

  /** Processing one more line after a list. */
  lemma FoldLast(step: Handler, s: P.State, lines: seq<string>, line: string)
    ensures var (s1, w1) := Fold(step, s, lines, |lines|);
      var (s2, w2) := step(s1, line);
      Fold(step, s, lines + [line], |lines + [line]|) == (s2, w1 + w2)
  {
    FoldPrefix(step, s, lines, [line], |lines|);
    assert (lines + [line])[|lines|] == line;
  }

  /** Two chunks sent as one, separated by a newline, are served as the
      first chunk followed by the second: the responses of the first come
      first and the second chunk starts from the state the first left. */
  lemma ServeConcat(cfg: P.Config, s: P.State, a: string, b: string)
    ensures var (s1, w1) := Serve(cfg, s, a);
      var (s2, w2) := Serve(cfg, s1, b);
      Serve(cfg, s, a + "\n" + b) == (s2, w1 + w2)
  {
    SplitConcat(a, b);
    FoldAppend(StepOf(cfg), s, SplitLines(a), SplitLines(b));
  }

  /** A line that reaches the service: a JSON request whose action is
      "enqueue" with data, or "next" with a channel. */
  predicate WellFormed(json: Codec, line: string) {
    match json.parse(line)
    case None => false
    case Some(req) =>
      var action := Get(req, "action");
      && Present(action)
      && ((action.value == Str("enqueue") && Present(Get(req, "data")))
          || (action.value == Str("next") && Present(Get(req, "channel"))))
  }

  /** Any other line writes nothing and leaves the service untouched. */
  lemma MalformedRequestChangesNothing(cfg: P.Config, s: P.State, line: string)
    requires !WellFormed(cfg.json, line)
    ensures HandleLine(cfg, s, line).0 == s
    ensures HandleLine(cfg, s, line).1.Err?
  {
  }

  /** An enqueue request hands its data to the service, which (given a
      codec whose parse undoes its stringify) transforms and sweeps exactly
      that value; the acknowledgement is written exactly when that raised
      nothing, and otherwise nothing is written. */
  lemma EnqueueRequest(cfg: P.Config, s: P.State, line: string, req: Value, data: Value)
    requires cfg.json.parse(line) == Some(req)
    requires Get(req, "action") == Some(Str("enqueue")) && Get(req, "data") == Some(data) && data != Null
    requires cfg.json.parse(cfg.json.stringify(data)) == Some(data)
    ensures var (s1, st) := P.TransformAndDispatchAll(cfg, s.(input := s.input + [data]));
      && HandleLine(cfg, s, line).0 == s1
      && (HandleLine(cfg, s, line).1 == Ok(ACK) <==> st == Pass)
      && (st.Fail? ==> HandleLine(cfg, s, line).1 == Err(st.error))
  {
  }

  /** A next request writes what `service.next(channel)` returns, or
      nothing when that raises. */
  lemma NextRequest(cfg: P.Config, s: P.State, line: string, req: Value, channel: Value)
    requires cfg.json.parse(line) == Some(req)
    requires Get(req, "action") == Some(Str("next")) && Get(req, "channel") == Some(channel) && channel != Null
    ensures HandleLine(cfg, s, line) == P.Next(cfg, s, channel)
  {
  }
}
