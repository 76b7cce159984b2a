# Tunnel client and tunnel registry of tabby-web's app connector

This project models, in Dafny, the core of `src/services/appConnector.service.ts`:

- `SocketProxy`: one tunnel through a connection gateway. It picks the
  gateway (the user's custom URL, or else the gateway lookup), opens a
  WebSocket to it, and answers the gateway's handshake. A `hello` gets a
  version-1 hello with the user's token, a `ready` gets a connect request
  for the target host and port, and on `connected` the proxy fires
  `connect$` and flushes the bytes written early. An `error` closes the
  tunnel. Text frames carry control messages. Binary frames carry payload
  and go to `data$` unchanged. Writes are buffered while there is no socket
  or the socket is still CONNECTING, and are sent at once otherwise.
  `close` closes the socket, reports an optional error on `error$`,
  completes the subjects and fires `close$`.
- `AppConnectorService.createSocket`: the list of live proxies. A new proxy
  is appended, and the proxy is filtered out by identity when its `close$`
  fires.

The project has two layers.

- `proxy_spec.dfy` is a value model. A `Proxy` holds the proxy's fields, the
  WebSocket's URL and `readyState`, the set of completed subjects and one
  append-only log of observable effects: frames sent, calls to the socket's
  `close()`, gateway lookups and subject notifications. Each operation is a
  function from the old state to the new one. The lemmas there state what
  the operations promise. A proxy is valid when it has a target whenever it
  has a socket, when no subject delivers anything after its completion, and
  when every completion in the log is remembered. The `…KeepsValid` lemmas
  show that every operation keeps a proxy valid.
- `app_connector.dfy` holds the classes `WebSocket`, `SocketProxy` and
  `AppConnectorService`. They have the source's fields, and their methods
  change them step by step, as the source does. Every method is proved to
  leave `Model()` equal to the matching function of the value model applied
  to the old state. The registry methods are proved to keep the list free
  of duplicates and to remove a closed proxy with `SocketList.Without`.

`messages.dfy` holds the decoded control messages, frames, subject events and
log entries. `socket_list.dfy` holds the filter that removes a proxy from the
list, with its lemmas.

`readyState` follows the WebSocket interface of the WHATWG HTML Living
Standard: CONNECTING = 0, OPEN = 1, CLOSING = 2, CLOSED = 3. `close()` moves a
CONNECTING or OPEN socket to CLOSING and leaves a CLOSING or CLOSED socket
alone. `send()` throws while CONNECTING, so sending requires a socket past
CONNECTING. Messages are dispatched only to an OPEN socket, so `OnMessage`
requires OPEN. The four subjects follow RxJS `Subject` semantics: `next`
and `complete` on a completed subject deliver nothing.

Where the code differs from a strict handshake, the model follows the code:

- `write` buffers only while the socket is absent or CONNECTING (line 82),
  not until `connected`. A chunk written after the socket opened but before
  `connected` is sent at once, ahead of the bytes buffered earlier. The
  lemma `ProxySpec.OpenSocketWriteOvertakesBuffer` shows this.
- `hello`, `ready` and `connected` are acted on whenever they arrive. A
  binary frame reaches `data$` whatever the handshake has got to.
- On `connected`, `connect$` fires before the buffer is sent, and the buffer
  is sent even when it is empty.
- `close` has no guard. A second call calls the socket's `close()` again. It
  delivers nothing more, because every subject has already completed
  (`ProxySpec.SecondCloseOnlyClosesSocketAgain`). `close` dereferences
  `webSocket`, so it requires one.
- A failed gateway lookup only emits on `error$`. It neither completes the
  subjects nor fires `close$`, so the registry keeps such a proxy.

## Model

| member | source | states |
|---|---|---|
| `Messages.ServiceMessageOf` | src/services/appConnector.service.ts:51-74 | a message is unrecognized exactly when its `_` is none of hello, ready, connected, error; the result is well formed |
| `Messages.ParseOfTag` | src/services/appConnector.service.ts:51-74 | reading a well-formed message's tag and details back gives the same message |
| `Messages.TagOfParse` | src/services/appConnector.service.ts:51-74 | the dispatched message keeps the tag it came with, and an error keeps its details |
| `SocketList.Without` | src/services/appConnector.service.ts:156 | the filtered list lacks the closed proxy, keeps every other proxy, and is no longer |
| `SocketList.WithoutAppend` | src/services/appConnector.service.ts:156 | filtering distributes over concatenation, so the others keep their relative order |
| `SocketList.WithoutAbsent` | src/services/appConnector.service.ts:156 | removing a proxy that is not listed leaves the list unchanged |
| `SocketList.WithoutIdempotent` | src/services/appConnector.service.ts:156 | repeating the removal changes nothing |
| `SocketList.WithoutCommutes` | src/services/appConnector.service.ts:155-157 | two proxies closing in either order leave the same list |
| `SocketList.WithoutAt` | src/services/appConnector.service.ts:152-157 | in a duplicate-free list, removing the proxy at position i leaves exactly the entries before and after it, in order |
| `SocketList.WithoutDistinct` | src/services/appConnector.service.ts:152-157 | removal keeps the list free of duplicates |
| `SocketList.RegisterThenRemove` | src/services/appConnector.service.ts:152-157 | appending a new proxy and removing it on close restores the list |
| `ProxySpec.SocketAfterClose` | src/services/appConnector.service.ts:90 | after `webSocket.close()` the socket is CLOSING or CLOSED with the same URL; a closing or closed socket is unchanged |
| `ProxySpec.Initial` | src/services/appConnector.service.ts:23-25 | a new proxy has an empty buffer, no socket, no completed subject and an empty log |
| `ProxySpec.BufferingBeforeOpen` | src/services/appConnector.service.ts:82 | `Buffering`, the JavaScript falsiness of `webSocket?.readyState`, holds exactly while there is no socket or it is CONNECTING |
| `ProxySpec.Emit` | src/services/appConnector.service.ts:10-13 | `next` on a completed subject changes nothing; on a live one it appends exactly that notification to the log and changes nothing else |
| `ProxySpec.Complete` | src/services/appConnector.service.ts:10-13 | `complete` on a completed subject changes nothing; otherwise it marks the subject completed and appends exactly its completion to the log |
| `ProxySpec.Send` | src/services/appConnector.service.ts:77-79 | a send changes only the log |
| `ProxySpec.Connect` | src/services/appConnector.service.ts:27-38 | the target is stored; buffer and subjects are untouched; when a gateway URL is obtained, a CONNECTING socket to that URL exists |
| `ProxySpec.SocketOpened` | src/services/appConnector.service.ts:38 | the connection being established moves the socket from CONNECTING to OPEN and changes nothing else |
| `ProxySpec.Write` | src/services/appConnector.service.ts:81-87 | a write changes only the buffer and the log |
| `ProxySpec.WriteAll` | src/services/appConnector.service.ts:81-87 | successive writes change only the buffer and the log |
| `ProxySpec.Teardown` | src/services/appConnector.service.ts:94-98 | all four subjects end completed; only the log and the completed set change |
| `ProxySpec.CloseSocket` | src/services/appConnector.service.ts:90 | `webSocket.close()` closes the socket as `SocketAfterClose` says and is logged; nothing else changes |
| `ProxySpec.Close` | src/services/appConnector.service.ts:89-99 | the socket is closed, URL, buffer and target are kept, and all four subjects end completed |
| `ProxySpec.TeardownLog` | src/services/appConnector.service.ts:94-98 | with `data$`, `error$` and `close$` live, `close` logs the completion of `connect$` (unless done), `data$`, `error$`, then `close$` firing, then its completion |
| `ProxySpec.HandleServiceMessage` | src/services/appConnector.service.ts:51-75 | every message but `error` leaves socket, URL and target alone |
| `ProxySpec.OnMessage` | src/services/appConnector.service.ts:39-45 | only an `error` control message can change socket, URL or target; a binary frame leaves buffer and completed subjects alone |
| `ProxySpec.ConnectionClosed` | src/services/appConnector.service.ts:46-48 | when the connection goes away the socket is CLOSED and all four subjects end completed |
| `ProxySpec.EmitKeepsValid` | src/services/appConnector.service.ts:10-13 | `next` keeps the proxy valid |
| `ProxySpec.CompleteKeepsValid` | src/services/appConnector.service.ts:10-13 | `complete` keeps the proxy valid |
| `ProxySpec.SendKeepsValid` | src/services/appConnector.service.ts:77-79 | a send keeps the proxy valid |
| `ProxySpec.ConnectKeepsValid` | src/services/appConnector.service.ts:27-38 | `connect` keeps the proxy valid, whether the lookup succeeds or fails |
| `ProxySpec.WriteKeepsValid` | src/services/appConnector.service.ts:81-87 | `write` keeps the proxy valid, whether the chunk is buffered or sent |
| `ProxySpec.TeardownKeepsValid` | src/services/appConnector.service.ts:94-98 | the end of `close` keeps the proxy valid |
| `ProxySpec.CloseKeepsValid` | src/services/appConnector.service.ts:89-99 | `close` keeps the proxy valid, with or without an error |
| `ProxySpec.HandleServiceMessageKeepsValid` | src/services/appConnector.service.ts:51-75 | every control message keeps the proxy valid |
| `ProxySpec.OnMessageKeepsValid` | src/services/appConnector.service.ts:39-45 | every frame delivered to the open socket keeps the proxy valid |
| `ProxySpec.ConnectionClosedKeepsValid` | src/services/appConnector.service.ts:46-48 | the `onclose` handler keeps the proxy valid |
| `ProxySpec.NothingAfterCompletion` | src/services/appConnector.service.ts:94-98 | in a disciplined log nothing is delivered on a subject after its completion |
| `ProxySpec.WritesAreBuffered` | src/services/appConnector.service.ts:81-84 | with no socket or a CONNECTING one, writes make the buffer the old buffer followed by the chunks in order, and nothing is sent |
| `ProxySpec.WritesAreSent` | src/services/appConnector.service.ts:81-86 | on a socket past CONNECTING, each chunk is sent at once as one binary frame, in order, and the buffer is untouched |
| `ProxySpec.HelloIsAnswered` | src/services/appConnector.service.ts:52-57 | `hello` sends exactly one text message, the version-1 hello with the user's token, and changes nothing else |
| `ProxySpec.ReadyRequestsTarget` | src/services/appConnector.service.ts:58-63 | `ready` sends exactly one text message, the connect request for the stored host and port, and changes nothing else |
| `ProxySpec.ConnectedFlushesBuffer` | src/services/appConnector.service.ts:64-68 | `connected` fires and completes `connect$` (unless already completed), then sends the whole buffer as one binary frame, even when empty, then empties it |
| `ProxySpec.FlushedBytesNotResent` | src/services/appConnector.service.ts:64-68 | after the flush, later writes send only their own chunks: the flushed bytes go out once, before them |
| `ProxySpec.GatewayErrorCloses` | src/services/appConnector.service.ts:69-71 | `error` closes the socket, reports the failure before `close$` fires, and completes every subject |
| `ProxySpec.UnrecognizedIgnored` | src/services/appConnector.service.ts:72-74 | a message with any other `_` changes nothing and sends nothing |
| `ProxySpec.PayloadForwarded` | src/services/appConnector.service.ts:42-44 | a binary frame reaches `data$` unchanged whatever the handshake state, unless `data$` completed; nothing else changes |
| `ProxySpec.SecondCloseOnlyClosesSocketAgain` | src/services/appConnector.service.ts:89-99 | a second `close` only calls the socket's `close()` again; no event is delivered twice |
| `ProxySpec.NothingDeliveredAfterClose` | src/services/appConnector.service.ts:94-98 | after `close` no notification of any subject is delivered |
| `ProxySpec.CustomGatewayUsed` | src/services/appConnector.service.ts:29-30 | with a custom gateway the resolver is not asked, its outcome is irrelevant, and the socket opens to that URL |
| `ProxySpec.ResolvedGatewayUsed` | src/services/appConnector.service.ts:29-38 | without a custom gateway, one lookup is made and the socket opens to the URL it returns |
| `ProxySpec.ResolverFailureReported` | src/services/appConnector.service.ts:31-36 | a failed lookup emits one error (if `error$` is live) and creates no socket |
| `ProxySpec.ConnectFromInitial` | src/services/appConnector.service.ts:23-38 | a new proxy after a successful `connect` holds the target and a CONNECTING socket to the chosen gateway |
| `ProxySpec.HandshakeUntilReady` | src/services/appConnector.service.ts:27-63 | up to `ready`, the early chunks are buffered in order and the hello reply and connect request have gone out |
| `ProxySpec.HandshakeLog` | src/services/appConnector.service.ts:27-87 | the whole handshake logs hello reply, connect request, `connect$`, the early bytes as one frame, then each later chunk |
| `ProxySpec.HandshakeHappyPath` | src/services/appConnector.service.ts:27-87 | the binary frames sent are the early bytes concatenated, then each later chunk: nothing lost, duplicated or reordered |
| `ProxySpec.OpenSocketWriteOvertakesBuffer` | src/services/appConnector.service.ts:81-86 | a chunk written after the socket opened but before `connected` is sent ahead of the bytes buffered earlier |
| `AppConnector.WebSocket.constructor` | src/services/appConnector.service.ts:38 | a new socket has the given URL and is CONNECTING |
| `AppConnector.WebSocket.Establish` | src/services/appConnector.service.ts:82 | the network-driven CONNECTING-to-OPEN transition, which no source line performs; line 82 is where the proxy observes it |
| `AppConnector.WebSocket.Close` | src/services/appConnector.service.ts:90 | `close()` behaves as `ProxySpec.SocketAfterClose` |
| `AppConnector.WebSocket.Finish` | src/services/appConnector.service.ts:46 | the connection going away makes the socket CLOSED |
| `AppConnector.SocketProxy.constructor` | src/services/appConnector.service.ts:23-25 | a new proxy's state is `ProxySpec.Initial()` and it is not yet subscribed by the service |
| `AppConnector.SocketProxy.SocketsAfterClose` | src/services/appConnector.service.ts:155-157 | when the service subscribed and `close$` was still live, the proxy is no longer listed; every other proxy stays, nothing is added, an unlisted proxy leaves the list unchanged, and a duplicate-free list stays duplicate-free |
| `AppConnector.SocketProxy.EmitNext` | src/services/appConnector.service.ts:10-13 | follows `ProxySpec.Emit` |
| `AppConnector.SocketProxy.CompleteSubject` | src/services/appConnector.service.ts:10-13 | follows `ProxySpec.Complete` |
| `AppConnector.SocketProxy.SendFrame` | src/services/appConnector.service.ts:85 | follows `ProxySpec.Send`; requires a socket past CONNECTING |
| `AppConnector.SocketProxy.SendServiceMessage` | src/services/appConnector.service.ts:77-79 | the message goes out as one text frame |
| `AppConnector.SocketProxy.Connect` | src/services/appConnector.service.ts:27-49 | follows `ProxySpec.Connect` with the service's user; a new socket is fresh; the invariant is kept |
| `AppConnector.SocketProxy.Write` | src/services/appConnector.service.ts:81-87 | follows `ProxySpec.Write`; the invariant is kept |
| `AppConnector.SocketProxy.Teardown` | src/services/appConnector.service.ts:94-98 | follows `ProxySpec.Teardown`; the service drops this proxy exactly when it subscribed and `close$` was still live, and its list stays duplicate-free |
| `AppConnector.SocketProxy.CloseSocket` | src/services/appConnector.service.ts:90 | follows `ProxySpec.CloseSocket` |
| `AppConnector.SocketProxy.Close` | src/services/appConnector.service.ts:89-99 | follows `ProxySpec.Close`; the service's list changes as in Teardown and stays duplicate-free |
| `AppConnector.SocketProxy.HandleServiceMessage` | src/services/appConnector.service.ts:51-75 | follows `ProxySpec.HandleServiceMessage` with the user's token; only `error` can change the service's list, which stays duplicate-free |
| `AppConnector.SocketProxy.OnMessage` | src/services/appConnector.service.ts:39-45 | follows `ProxySpec.OnMessage`; only an `error` message can change the service's list, which stays duplicate-free |
| `AppConnector.SocketProxy.OnClose` | src/services/appConnector.service.ts:46-48 | follows `ProxySpec.ConnectionClosed`; the service's list changes as in Teardown and stays duplicate-free |
| `AppConnector.AppConnectorService.constructor` | src/services/appConnector.service.ts:107 | the list starts empty |
| `AppConnector.AppConnectorService.CreateSocket` | src/services/appConnector.service.ts:152-159 | a fresh proxy in its initial state is appended to the list and subscribed for removal; the list stays free of duplicates |
| `AppConnector.AppConnectorService.ForgetSocket` | src/services/appConnector.service.ts:155-157 | the list becomes `SocketList.Without` of the old list and the proxy, and stays duplicate-free |

## Left out

- The gateway lookup `chooseConnectionGateway` (lines 161-163) is an HTTP POST. Its outcome is a parameter of `Connect`, and the call is logged as a `GatewayRequested` entry.
- `connect` awaits the lookup, and other callbacks may run meanwhile. The model runs `connect` as one step. A write during the lookup finds no socket, so it is buffered either way.
- The debounced configuration autosave (lines 113-116, 128-131) and the getters `setState`, `loadConfig`, `getAppVersion`, `getDistURL` and `getPluginsToLoad` (lines 119-150) are HTTP I/O, timing or constant values, outside the tunnel.
- `JSON.parse` and `JSON.stringify` are not modelled. Control messages are already-decoded values, and a malformed text frame (which throws in `onmessage`) is not modelled.
- `ProxySpec.OnMessage` hands a binary frame to `data$` at once. The source first awaits `event.data.arrayBuffer()` (line 43), and frames or the socket's close that arrive meanwhile are handled first. So when a binary frame is followed by an `error` message, the source's `close` completes `data$` (line 95) before the chunk is read, and the chunk is never delivered. The model delivers it before the error. `ProxySpec.PayloadForwarded` states the model's behaviour, not this interleaving.
- `console.error` and `console.warn` logging is not modelled.
- Angular dependency injection and `LoginService` are not modelled. The service's `user` field stands for `loginService.user`, with an empty `customGateway` for every falsy value.
- Only the service's `close$` subscription is modelled. Other subscribers run synchronously inside `next` and could call back into the proxy, for example writing from a `connect$` subscriber before the flush. Such re-entrant callbacks are not modelled.
- A second `connect` leaves the first socket's handlers installed in the source. The model only follows the current socket.
- Data passed to `send()` on a CLOSING or CLOSED socket is logged as sent. The browser discards it; the model does not.
- URL validation by the `WebSocket` constructor (a `SyntaxError` for a bad URL), `bufferedAmount` and back-pressure are not modelled.
- The moments at which the socket opens or the connection ends are driven by the network. They are explicit methods here (`WebSocket.Establish`, `SocketProxy.OnClose`).
