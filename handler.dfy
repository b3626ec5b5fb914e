/** MessageServiceSocketHandler: the server side of one connection. What the
    handler writes to its socket is the sequence `sent`; each method is proved
    to move the service and `sent` exactly as the matching function of
    Protocol says. */
module Handler {
  import opened Values
  import Service
  import P = Pipeline
  import opened Protocol

  class SocketHandler {
    const service: Service.MessageService
    /** Everything written to the socket so far, one entry per write. */
    var sent: seq<string>

    ghost predicate Valid() {
      service.Valid()
    }

    constructor (service: Service.MessageService)
      requires service.Valid()
      ensures Valid() && this.service == service && sent == []
    {
      this.service := service;
      sent := [];
    }

    /** enqueueResponder. */
    method EnqueueResponder(req: Value) returns (r: Result<string>)
      requires Valid()
      modifies this, service, service.inQueue, service.transfQueue, service.outQueues
      ensures (service.Abs(), r) == Protocol.EnqueueResponder(service.Cfg(), old(service.Abs()), req)
      ensures sent == old(sent) + Written(r)
    {
      var data := Get(req, "data");
      if !Present(data) {
        return Err(MissingData);
      }
      var st := service.Enqueue(service.json.stringify(data.value));
      if st.Fail? {
        return Err(st.error);
      }
      sent := sent + [ACK];
      r := Ok(ACK);
    }

    /** nextResponder. */
    method NextResponder(req: Value) returns (r: Result<string>)
      requires Valid()
      modifies this, service, service.transfQueue, service.outQueues
      ensures (service.Abs(), r) == Protocol.NextResponder(service.Cfg(), old(service.Abs()), req)
      ensures sent == old(sent) + Written(r)
    {
      var channel := Get(req, "channel");
      if !Present(channel) {
        return Err(MissingChannel);
      }
      r := service.Next(channel.value);
      if r.Ok? {
        sent := sent + [r.value];
      }
    }

    /** The `try` block of serve for one nonempty line; the exception it
        returns is the one serve logs. */
    method HandleLine(line: string) returns (r: Result<string>)
      requires Valid()
      modifies this, service, service.inQueue, service.transfQueue, service.outQueues
      ensures (service.Abs(), r) == Protocol.HandleLine(service.Cfg(), old(service.Abs()), line)
      ensures sent == old(sent) + Written(r)
    {
      var req := service.json.parse(line);
      if req.None? {
        return Err(ParseError);
      }
      var action := Get(req.value, "action");
      if !Present(action) {
        return Err(NoAction);
      }
      if action.value == Str("enqueue") {
        r := EnqueueResponder(req.value);
      } else if action.value == Str("next") {
        r := NextResponder(req.value);
      } else {
        r := Err(UnknownAction);
      }
    }

    /** serve: the handler of the socket's data event. */
    method Serve(requests: string)
      requires Valid()
      modifies this, service, service.inQueue, service.transfQueue, service.outQueues
      ensures service.Abs() == Protocol.Serve(service.Cfg(), old(service.Abs()), requests).0
      ensures sent == old(sent) + Protocol.Serve(service.Cfg(), old(service.Abs()), requests).1
    {
      var lines := SplitLines(requests);
      ghost var cfg := service.Cfg();
      ghost var s0 := service.Abs();
      ghost var sent0 := sent;
      var i := 0;
      while i < |lines|
        invariant 0 <= i <= |lines|
        invariant service.Abs() == ServeUpTo(cfg, s0, lines, i).0
        invariant sent == sent0 + ServeUpTo(cfg, s0, lines, i).1
      {
        ghost var w := ServeUpTo(cfg, s0, lines, i).1;
        var line := lines[i];
        if line != "" {
          var r := HandleLine(line);
        }
        assert ServeUpTo(cfg, s0, lines, i + 1).1 == w + Step(cfg, ServeUpTo(cfg, s0, lines, i).0, line).1;
        i := i + 1;
      }
    }
  }
}
