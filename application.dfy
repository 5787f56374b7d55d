/** The application's request lifecycle: the registry of open connections and their idle
    flags, the registry of requests being dispatched, the `closing` flag, and the event
    handlers and operations that change them. Every Node event becomes one method call. */
module App {
  import opened Wrappers
  import opened Compose

  /** An accepted connection. `endCalls` records how often the application has called
      `end()` on it; the network effect of ending is not modelled. */
  class Socket {
    var idle: bool
    var endCalls: nat

    /** A new socket carries no `idle` property yet, which reads as falsy. */
    constructor()
      ensures !idle && endCalls == 0
    {
      idle := false;
      endCalls := 0;
    }
  }

  class Request {
    const socket: Socket
    /** Advisory flag set by `stop`; nothing in this core reads it. */
    var cancelled: bool

    constructor(socket: Socket)
      ensures this.socket == socket && !cancelled
    {
      this.socket := socket;
      cancelled := false;
    }
  }

  class Response {
    var headers: map<string, string>

    constructor(headers: map<string, string>)
      ensures this.headers == headers
    {
      this.headers := headers;
    }
  }

  /** The per-request receiver of every middleware call. It keeps only its constructor's
      arguments; its `stack` is an immutable value here, where the source shares one array
      with `next`. */
  class Context {
    const app: Application
    const stack: seq<Entry>
    const req: Request
    const res: Response

    constructor(app: Application, stack: seq<Entry>, req: Request, res: Response)
      ensures this.app == app && this.stack == stack && this.req == req && this.res == res
    {
      this.app := app;
      this.stack := stack;
      this.req := req;
      this.res := res;
    }
  }

  const DefaultPort: nat := 3000

  /** The `port` property of the options object: absent, present but `undefined`, or a
      number. `Object.assign` copies a present `undefined` over the default. */
  datatype PortOption = Omitted | Undefined | Given(number: nat)

  /** The stack every application is built with: logging, writing the response, turning
      errors into responses, and routing. */
  function DefaultStack(): seq<Entry>
  {
    [Fn(Log), Fn(Write), Fn(Rescue), Fn(Route)]
  }

  /** Through the default stack, a request whose route responds passes through every
      middleware in order and resolves; one whose route delegates ends in Not-Found. */
  lemma DefaultStackOrder(behaviour: Handler -> Action)
    requires behaviour(Log) == Delegate && behaviour(Write) == Delegate && behaviour(Rescue) == Delegate
    ensures behaviour(Route) == Respond ==>
      Chain(DefaultStack(), 0, behaviour) == ChainRun([Log, Write, Rescue, Route], Resolved)
    ensures behaviour(Route) == Delegate ==>
      Chain(DefaultStack(), 0, behaviour) == ChainRun([Log, Write, Rescue, Route], Rejected(EndpointMissing))
  {
  }

  class Application {
    /** `None` is `undefined`: listening then binds whatever free port the system picks. */
    const port: Option<nat>
    /** Fixed at construction; the object is frozen. */
    const stack: seq<Entry>
    /** Set by `stop`, never reset. */
    var closing: bool
    var sockets: set<Socket>
    var requests: set<Request>

    /** Once closing, no registered socket is both idle and left open. */
    ghost predicate Drained()
      reads this, sockets
    {
      closing ==> forall s :: s in sockets ==> !s.idle || s.endCalls > 0
    }

    /** An application with the default stack, on port 3000 unless the options carry a
        `port` property, whose value (even `undefined`) then replaces it. */
    constructor(port: PortOption)
      ensures port.Omitted? ==> this.port == Some(DefaultPort)
      ensures port.Undefined? ==> this.port == None
      ensures port.Given? ==> this.port == Some(port.number)
      ensures stack == DefaultStack()
      ensures !closing && sockets == {} && requests == {}
      ensures Drained()
    {
      this.port := match port
        case Omitted => Some(DefaultPort)
        case Undefined => None
        case Given(n) => Some(n);
      stack := DefaultStack();
      closing := false;
      sockets := {};
      requests := {};
    }

    /** The server accepted `socket`: it is idle and registered. */
    method OnConnection(socket: Socket)
      modifies this, socket
      ensures socket.idle && socket.endCalls == old(socket.endCalls)
      ensures sockets == old(sockets) + {socket}
      ensures requests == old(requests) && closing == old(closing)
      ensures old(Drained()) && !closing ==> Drained()
    {
      socket.idle := true;
      sockets := sockets + {socket};
    }

    /** `socket` emitted `close`: it leaves the registry. */
    method OnSocketClose(socket: Socket)
      modifies this
      ensures sockets == old(sockets) - {socket}
      ensures requests == old(requests) && closing == old(closing)
      ensures old(Drained()) ==> Drained()
    {
      sockets := sockets - {socket};
    }

    /** A request arrived: its socket is busy, and once closing the response is told
        to close the connection. */
    method OnRequest(req: Request, res: Response)
      modifies req.socket, res
      ensures !req.socket.idle && req.socket.endCalls == old(req.socket.endCalls)
      ensures res.headers == if closing then old(res.headers)["Connection" := "close"] else old(res.headers)
      ensures old(Drained()) ==> Drained()
    {
      var socket := req.socket;
      socket.idle := false;
      if closing {
        res.headers := res.headers - {"Connection"};
        res.headers := res.headers["Connection" := "close"];
      }
    }

    /** The response to `req` finished: its socket is idle again, and it is ended exactly
        when the application is closing. */
    method OnFinish(req: Request)
      modifies req.socket
      ensures req.socket.idle
      ensures req.socket.endCalls == old(req.socket.endCalls) + if closing then 1 else 0
      ensures old(Drained()) ==> Drained()
    {
      var socket := req.socket;
      socket.idle := true;
      if closing {
        socket.endCalls := socket.endCalls + 1;
      }
    }

    /** Graceful shutdown: mark closing, flag every in-flight request as cancelled, and end
        every idle socket; busy sockets are left to their response's finish. */
    method Stop()
      modifies this, requests, sockets
      ensures closing
      ensures sockets == old(sockets) && requests == old(requests)
      ensures forall r :: r in requests ==> r.cancelled
      ensures forall s :: s in sockets ==>
        s.idle == old(s.idle) && s.endCalls == old(s.endCalls) + if old(s.idle) then 1 else 0
      ensures Drained()
    {
      closing := true;

      var pending := requests;
      while pending != {}
        invariant pending <= requests
        invariant forall r :: r in requests && r !in pending ==> r.cancelled
        modifies requests
        decreases pending
      {
        var r :| r in pending;
        r.cancelled := true;
        pending := pending - {r};
      }

      var unvisited := sockets;
      while unvisited != {}
        invariant unvisited <= sockets
        invariant forall s :: s in sockets ==> s.idle == old(s.idle)
        invariant forall s :: s in unvisited ==> s.endCalls == old(s.endCalls)
        invariant forall s :: s in sockets && s !in unvisited ==>
          s.endCalls == old(s.endCalls) + if old(s.idle) then 1 else 0
        modifies sockets
        decreases unvisited
      {
        var s :| s in unvisited;
        if s.idle {
          s.endCalls := s.endCalls + 1;
        }
        unvisited := unvisited - {s};
      }
    }

    /** The start of `dispatch`: a fresh context and `next` over a copy of the stack, and
        the request registered before the chain runs. */
    method BeginDispatch(req: Request, res: Response) returns (next: Composer<Context>)
      modifies this
      ensures fresh(next) && next.Valid()
      ensures next.stack == stack && next.cursor == 0
      ensures fresh(next.context) && next.context.stack == stack
      ensures next.context.app == this && next.context.req == req && next.context.res == res
      ensures requests == old(requests) + {req}
      ensures sockets == old(sockets) && closing == old(closing)
    {
      var copy := stack;
      var context := new Context(this, copy, req, res);
      next := new Composer(copy, context);
      requests := requests + {req};
    }

    /** The `finally` of `dispatch`: the request leaves the registry. */
    method EndDispatch(req: Request)
      modifies this
      ensures requests == old(requests) - {req}
      ensures sockets == old(sockets) && closing == old(closing)
    {
      requests := requests - {req};
    }

    /** `dispatch` when no other event interleaves: the chain runs as `behaviour` says, and
        the request is registered for its duration only, however the chain settles. */
    method Dispatch(req: Request, res: Response, behaviour: Handler -> Action) returns (run: ChainRun)
      modifies this
      ensures run == Chain(stack, 0, behaviour)
      ensures requests == old(requests) - {req}
      ensures sockets == old(sockets) && closing == old(closing)
    {
      var next := BeginDispatch(req, res);
      assert req in requests;
      run := next.Run(behaviour);
      EndDispatch(req);
    }
  }

  /** Shutdown with one idle and one busy connection: the idle one is ended by `stop`, the
      busy one only when its response finishes; the in-flight request is cancelled and
      leaves the registry when its dispatch settles. */
  method GracefulStop() returns (idleEnds: nat, busyEndsAtStop: nat, busyEndsAfterFinish: nat,
                                  cancelled: bool, registered: nat)
    ensures idleEnds == 1 && busyEndsAtStop == 0 && busyEndsAfterFinish == 1
    ensures cancelled
    ensures registered == 0
  {
    var app := new Application(Omitted);
    var quiet := new Socket();
    var busy := new Socket();
    app.OnConnection(quiet);
    app.OnConnection(busy);
    assert app.sockets == {quiet, busy};

    var req := new Request(busy);
    var res := new Response(map[]);
    app.OnRequest(req, res);
    var next := app.BeginDispatch(req, res);
    assert quiet.idle && !busy.idle && quiet.endCalls == 0 && busy.endCalls == 0;
    assert app.requests == {req};

    app.Stop();
    assert quiet in app.sockets && busy in app.sockets && req in app.requests;
    idleEnds, busyEndsAtStop, cancelled := quiet.endCalls, busy.endCalls, req.cancelled;

    app.OnFinish(req);
    assert busy.endCalls == 1;
    app.EndDispatch(req);
    assert app.requests == {};
    busyEndsAfterFinish := busy.endCalls;
    registered := |app.requests|;
  }

  /** A request that starts once the application is closing is answered with
      `Connection: close`, replacing the header it had. */
  method RequestWhileClosing() returns (header: map<string, string>, socketIdle: bool)
    ensures header == map["Connection" := "close"]
    ensures !socketIdle
  {
    var app := new Application(Given(8080));
    var socket := new Socket();
    app.OnConnection(socket);
    app.Stop();
    var req := new Request(socket);
    var res := new Response(map["Connection" := "keep-alive"]);
    app.OnRequest(req, res);
    header, socketIdle := res.headers, socket.idle;
  }
}
