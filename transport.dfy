/**
 * The socket.io transport as the registry sees it: opaque socket ids, the one `io.connect`
 * call `create` makes and the environment's answer to it, and a log of the actions the
 * registry performs on sockets and on the broadcast bus.
 */
module Transport {
  import opened Wrappers
  import opened JsValue

  /** An opaque handle to one socket.io connection. */
  datatype SocketId = SocketId(id: nat)

  /** `io.connect(url)` when `opts` is `None`, `io.connect(url, opts)` otherwise. */
  datatype ConnectCall = ConnectCall(url: string, opts: Option<Value>)

  /** What `io.connect` did: returned a socket, or threw. */
  datatype ConnectAnswer = Returned(socket: SocketId) | Threw(error: Value)

  /** One thing done to the outside world. */
  datatype Action =
    | Connect(call: ConnectCall)               // io.connect(...)
    | Listen(socket: SocketId, event: Value)   // socket.on(event, listener)
    | Emit(socket: SocketId, event: Value)     // socket.emit(event, ack)
    | Broadcast(topic: string)                 // $rootScope.$broadcast(topic, {data: ...})
}
