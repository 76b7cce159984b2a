/**
 The objects of src/services/appConnector.service.ts: the browser WebSocket
 a tunnel talks through, the tunnel itself (`SocketProxy`), and the service
 that creates tunnels and keeps the list of live ones. Every state change is
 proved to follow the value model in proxy_spec.dfy, whose lemmas state what
 the changes mean.
 */
module AppConnector {
  import opened Messages
  import opened ProxySpec
  import opened SocketList

  /** The WebSocket a proxy opens, as far as the proxy can observe it. */
  class WebSocket {
    const url: string
    var readyState: ReadyState

    /** `new WebSocket(url)` starts out CONNECTING. */
    constructor (url: string)
      ensures this.url == url && readyState == CONNECTING
    {
      this.url := url;
      readyState := CONNECTING;
    }

    /** The connection is established. */
    method Establish()
      requires readyState == CONNECTING
      modifies this
      ensures readyState == OPEN
    {
      readyState := OPEN;
    }

    /** `close()`: only a connecting or open socket changes, to CLOSING. */
    method Close()
      modifies this
      ensures Socket(url, readyState) == SocketAfterClose(Socket(url, old(readyState)))
    {
      if readyState < CLOSING {
        readyState := CLOSING;
      }
    }

    /** The connection is gone; the browser sets CLOSED before firing `close`. */
    method Finish()
      modifies this
      ensures readyState == CLOSED
    {
      readyState := CLOSED;
    }
  }

  /** One tunnel through a connection gateway. */
  class SocketProxy {
    const appConnector: AppConnectorService
    var url: string
    var webSocket: WebSocket?
    var initialBuffer: Bytes
    var options: Option<Target>
    /** The subjects that have completed. */
    var stopped: set<Stream>
    /** Everything the proxy has done that can be observed, in order. */
    var log: seq<Effect>
    /** Whether `createSocket` subscribed to `close$` to drop this proxy from its list. */
    var closeSubscribed: bool

    ghost function Model(): Proxy
      reads this, webSocket
    {
      Proxy(url,
            if webSocket == null then None else Some(Socket(webSocket.url, webSocket.readyState)),
            initialBuffer, options, stopped, log)
    }

    ghost predicate Valid()
      reads this, webSocket
    {
      ProxySpec.Valid(Model())
    }

    /** The service's list of live proxies once this proxy's `close$` has fired, or not. */
    ghost function SocketsAfterClose(sockets: seq<SocketProxy>, wasStopped: set<Stream>): (r: seq<SocketProxy>)
      reads this
      ensures closeSubscribed && CloseStream !in wasStopped ==> this !in r
      ensures forall s | s in sockets && s != this :: s in r
      ensures forall s | s in r :: s in sockets
      ensures this !in sockets ==> r == sockets
      ensures Distinct(sockets) ==> Distinct(r)
    {
      if closeSubscribed && CloseStream !in wasStopped then
        assert this !in sockets ==> Without(sockets, this) == sockets by {
          if this !in sockets { WithoutAbsent(sockets, this); }
        }
        assert Distinct(sockets) ==> Distinct(Without(sockets, this)) by {
          if Distinct(sockets) { WithoutDistinct(sockets, this); }
        }
        Without(sockets, this)
      else
        sockets
    }

    constructor (appConnector: AppConnectorService)
      ensures this.appConnector == appConnector && !closeSubscribed
      ensures Model() == Initial() && Valid()
    {
      this.appConnector := appConnector;
      url := "";
      webSocket := null;
      initialBuffer := [];
      options := None;
      stopped := {};
      log := [];
      closeSubscribed := false;
    }

    /** `subject.next(e)`. */
    method EmitNext(e: Event)
      requires !e.Completed?
      modifies this`log
      ensures Model() == Emit(old(Model()), e)
    {
      if StreamOf(e) !in stopped {
        log := log + [Emitted(e)];
      }
    }

    /** `subject.complete()`. */
    method CompleteSubject(s: Stream)
      modifies this`log, this`stopped
      ensures Model() == ProxySpec.Complete(old(Model()), s)
    {
      if s !in stopped {
        stopped := stopped + {s};
        log := log + [Emitted(Completed(s))];
      }
    }

    /** `this.webSocket.send(f)`. */
    method SendFrame(f: Frame)
      requires webSocket != null && webSocket.readyState != CONNECTING
      modifies this`log
      ensures Model() == Send(old(Model()), f)
    {
      log := log + [Sent(f)];
    }

    /** `sendServiceMessage(msg)`: the message goes out as one text frame. */
    method SendServiceMessage(msg: ClientMessage)
      requires webSocket != null && webSocket.readyState != CONNECTING
      modifies this`log
      ensures Model() == Send(old(Model()), TextFrame(msg))
    {
      SendFrame(TextFrame(msg));
    }

    /** `connect(options)`, with the gateway lookup's outcome given as `resolution`. */
    method Connect(options: Target, resolution: Resolution)
      requires Valid()
      modifies this`options, this`url, this`webSocket, this`log
      ensures Valid()
      ensures Model() == ProxySpec.Connect(old(Model()), options, appConnector.user, resolution)
      ensures webSocket != old(webSocket) ==> fresh(webSocket)
    {
      ConnectKeepsValid(Model(), options, appConnector.user, resolution);
      this.options := Some(options);
      url := appConnector.user.customGateway;
      if url == "" {
        log := log + [GatewayRequested];
        match resolution
        case Rejected(reason) =>
          EmitNext(ErrorNext(ResolverFailure(reason)));
          return;
        case Resolved(gateway) =>
          url := gateway;
      }
      webSocket := new WebSocket(url);
    }

    /** `write(chunk)`. */
    method Write(chunk: Bytes)
      requires Valid()
      modifies this`initialBuffer, this`log
      ensures Valid()
      ensures Model() == ProxySpec.Write(old(Model()), chunk)
    {
      WriteKeepsValid(Model(), chunk);
      if webSocket == null || webSocket.readyState == CONNECTING {
        initialBuffer := initialBuffer + chunk;
      } else {
        SendFrame(BinaryFrame(chunk));
      }
    }

    /** The end of `close`: the subjects complete and `close$` fires. */
    method Teardown()
      modifies this`log, this`stopped, appConnector`sockets
      ensures Model() == ProxySpec.Teardown(old(Model()))
      ensures old(appConnector.Valid()) ==> appConnector.Valid()
      ensures appConnector.sockets == SocketsAfterClose(old(appConnector.sockets), old(stopped))
    {
      CompleteSubject(ConnectStream);
      CompleteSubject(DataStream);
      CompleteSubject(ErrorStream);
      var live := CloseStream !in stopped;
      EmitNext(CloseNext);
      if live && closeSubscribed {
        appConnector.ForgetSocket(this);
      }
      CompleteSubject(CloseStream);
    }

    /** `this.webSocket.close()`, the first step of `close`. */
    method CloseSocket()
      requires webSocket != null
      modifies this`log, webSocket
      ensures Model() == ProxySpec.CloseSocket(old(Model()))
    {
      webSocket.Close();
      log := log + [SocketCloseCalled];
    }

    /** `close(error?)`. */
    method Close(error: Option<Failure>)
      requires Valid() && webSocket != null
      modifies this`log, this`stopped, webSocket, appConnector`sockets
      ensures Valid()
      ensures Model() == ProxySpec.Close(old(Model()), error)
      ensures old(appConnector.Valid()) ==> appConnector.Valid()
      ensures appConnector.sockets == SocketsAfterClose(old(appConnector.sockets), old(stopped))
    {
      CloseKeepsValid(Model(), error);
      CloseSocket();
      if error.Some? {
        EmitNext(ErrorNext(error.value));
      }
      Teardown();
    }

    /** `handleServiceMessage(msg)`. */
    method HandleServiceMessage(msg: ServiceMessage)
      requires Valid() && CanHandle(Model(), msg)
      modifies this`log, this`stopped, this`initialBuffer, webSocket, appConnector`sockets
      ensures Valid()
      ensures Model() == ProxySpec.HandleServiceMessage(old(Model()), msg, appConnector.user.customGatewayToken)
      ensures old(appConnector.Valid()) ==> appConnector.Valid()
      ensures appConnector.sockets == if msg.GatewayError? then SocketsAfterClose(old(appConnector.sockets), old(stopped))
                                      else old(appConnector.sockets)
    {
      HandleServiceMessageKeepsValid(Model(), msg, appConnector.user.customGatewayToken);
      match msg
      case Hello =>
        SendServiceMessage(HelloReply(1, appConnector.user.customGatewayToken));
      case Ready =>
        SendServiceMessage(ConnectRequest(options.value.host, options.value.port));
      case Connected =>
        EmitNext(ConnectNext);
        CompleteSubject(ConnectStream);
        SendFrame(BinaryFrame(initialBuffer));
        initialBuffer := [];
      case GatewayError(details) =>
        Close(Some(ServiceFailure(details)));
      case Unrecognized(_) =>
    }

    /** The `onmessage` handler installed by `connect`. */
    method OnMessage(frame: Incoming)
      requires Valid() && webSocket != null && webSocket.readyState == OPEN
      modifies this`log, this`stopped, this`initialBuffer, webSocket, appConnector`sockets
      ensures Valid()
      ensures Model() == ProxySpec.OnMessage(old(Model()), frame, appConnector.user.customGatewayToken)
      ensures old(appConnector.Valid()) ==> appConnector.Valid()
      ensures appConnector.sockets == if frame.ControlIn? && frame.msg.GatewayError?
                                      then SocketsAfterClose(old(appConnector.sockets), old(stopped))
                                      else old(appConnector.sockets)
    {
      OnMessageKeepsValid(Model(), frame, appConnector.user.customGatewayToken);
      match frame
      case ControlIn(msg) =>
        HandleServiceMessage(msg);
      case PayloadIn(chunk) =>
        EmitNext(DataNext(chunk));
    }

    /** The `onclose` handler installed by `connect`, run once the connection is gone. */
    method OnClose()
      requires Valid() && webSocket != null
      modifies this`log, this`stopped, webSocket, appConnector`sockets
      ensures Valid()
      ensures Model() == ConnectionClosed(old(Model()))
      ensures old(appConnector.Valid()) ==> appConnector.Valid()
      ensures appConnector.sockets == SocketsAfterClose(old(appConnector.sockets), old(stopped))
    {
      webSocket.Finish();
      Close(None);
    }
  }

  /** The service: the user's settings and the list of live proxies. */
  class AppConnectorService {
    /** `loginService.user`, as far as the proxies read it. */
    var user: User
    var sockets: seq<SocketProxy>

    ghost predicate Valid()
      reads this
    {
      Distinct(sockets)
    }

    constructor (user: User)
      ensures this.user == user && sockets == [] && Valid()
    {
      this.user := user;
      sockets := [];
    }

    /** `createSocket()`: a new proxy, appended to the list and subscribed for removal on close. */
    method CreateSocket() returns (socket: SocketProxy)
      requires Valid()
      modifies this`sockets
      ensures Valid() && fresh(socket)
      ensures sockets == old(sockets) + [socket]
      ensures socket.appConnector == this && socket.closeSubscribed
      ensures socket.Model() == Initial() && socket.Valid()
    {
      socket := new SocketProxy(this);
      sockets := sockets + [socket];
      socket.closeSubscribed := true;
    }

    /** The `close$` subscription `createSocket` makes: drop that proxy from the list. */
    method ForgetSocket(socket: SocketProxy)
      modifies this`sockets
      ensures sockets == Without(old(sockets), socket)
      ensures old(Valid()) ==> Valid()
    {
      if Valid() {
        WithoutDistinct(sockets, socket);
      }
      sockets := Without(sockets, socket);
    }
  }
}
